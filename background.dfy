/**
 * The extension's background worker: the cached backend status, the
 * `panelReady` flag and the set of tabs whose content script reported in, how
 * each status poll is classified into one outbound message, the handshake
 * replies, and the gate in front of every broadcast.
 *
 * Network answers and the tab list of `chrome.tabs.query` are parameters;
 * a message sent to a tab is recorded in `outbox`.
 */
module Background {
  import opened Wrappers
  import opened JsText
  import opened WhatsAppService

  /** The JSON of `/auth/status`. */
  datatype BackendStatus = BackendStatus(ready: bool, message: string, qrCodeAvailable: bool)

  /** The messages the worker sends to tabs. */
  datatype OutMessage =
    | QrAvailable
    | ClientReady
    | StatusUpdate(status: BackendStatus)
    | BackendError(error: string)
    | TogglePanelVisibility

  datatype Delivery = Delivery(tab: int, message: OutMessage)

  /** What a backend request gave: the parsed body of an ok response, a non-ok
      response with the `error` and `message` fields of its JSON body (both
      `None` when the body does not parse), or a network error. */
  datatype Fetched<T> = Fetched(value: T) | HttpFailure(code: int, error: Option<string>, message: Option<string>)
                      | NetworkFailure(reason: string)

  /** The error text of a failed request:
      `errorData.error || errorData.message || <prefix><status>`, or the network error. */
  function FailureText<T>(f: Fetched<T>, prefix: string): (t: string)
    requires !f.Fetched?
    ensures f.HttpFailure? && Truthy(f.error) ==> t == f.error.value
    ensures f.HttpFailure? && !Truthy(f.error) && Truthy(f.message) ==> t == f.message.value
    ensures f.HttpFailure? && !Truthy(f.error) && !Truthy(f.message) ==> t == prefix + IntToString(f.code)
    ensures f.NetworkFailure? ==> t == f.reason
  {
    match f
    case HttpFailure(code, error, message) => Or(Or(error, message), Some(prefix + IntToString(code))).GetOr("")
    case NetworkFailure(reason) => reason
  }

  /** The broadcast for a successfully polled status. */
  function Classify(status: BackendStatus): (m: OutMessage)
    ensures m == QrAvailable <==> status.qrCodeAvailable && !status.ready
    ensures m == ClientReady <==> status.ready
    ensures m.StatusUpdate? <==> !status.ready && !status.qrCodeAvailable
    ensures m.StatusUpdate? ==> m.status == status
  {
    if status.qrCodeAvailable && !status.ready then QrAvailable
    else if status.ready then ClientReady
    else StatusUpdate(status)
  }

  /** The push that follows the reply to `PANEL_READY`: the poll's classification
      of the cached status, except that no status update is pushed. */
  function HandshakePush(cached: BackendStatus): (m: Option<OutMessage>)
    ensures m.Some? <==> !Classify(cached).StatusUpdate?
    ensures m.Some? ==> m.value == Classify(cached)
  {
    if cached.qrCodeAvailable && !cached.ready then Some(QrAvailable)
    else if cached.ready then Some(ClientReady)
    else None
  }

  /** The deliveries of one broadcast: one per open tab that reported ready, in
      the order the tabs were listed. */
  function Deliveries(openTabs: seq<int>, readyTabs: set<int>, m: OutMessage): (ds: seq<Delivery>)
    ensures |ds| <= |openTabs|
    ensures forall d :: d in ds <==> d.message == m && d.tab in openTabs && d.tab in readyTabs
  {
    if openTabs == [] then []
    else
      var rest := Deliveries(openTabs[1..], readyTabs, m);
      assert forall t :: t in openTabs <==> t == openTabs[0] || t in openTabs[1..];
      if openTabs[0] in readyTabs then [Delivery(openTabs[0], m)] + rest else rest
  }

  /** A tab that reports in later also receives later broadcasts; no tab ever
      loses them, as the ready set only grows. */
  lemma {:induction false} DeliveriesMonotone(openTabs: seq<int>, ready1: set<int>, ready2: set<int>, m: OutMessage)
    requires ready1 <= ready2
    ensures forall d :: d in Deliveries(openTabs, ready1, m) ==> d in Deliveries(openTabs, ready2, m)
  {
  }

  /** The toolbar action is forwarded only for a WhatsApp Web tab that reported ready. */
  predicate ActionForwarded(tabId: int, url: Option<string>, readyTabs: set<int>) {
    Truthy(url) && StartsWith(url.value, "https://web.whatsapp.com") && tabId in readyTabs
  }

  /** The messages the worker receives; any other type is `Unknown`. */
  datatype Incoming = PanelReady | ContentScriptReady | Unknown(kind: string)

  datatype Reply =
    | PanelReadyReply(success: bool, ready: bool, message: string, qrCodeAvailable: bool)
    | Acknowledged
    | UnknownTypeReply(success: bool, error: string)

  /** The module state of the background worker. */
  class Coordinator {
    var backendClientReady: bool
    var lastStatus: BackendStatus
    var panelReady: bool
    var readyTabs: set<int>
    var backendGroups: seq<Group>
    /** What `chrome.storage.local` holds under `whatsappGroups`. */
    var storedGroups: Option<seq<Group>>
    /** Every message sent to a tab, oldest first. */
    var outbox: seq<Delivery>

    /** The readiness flag mirrors the cached status, and every message went to a
        tab that had reported ready. */
    predicate Valid()
      reads this
    {
      backendClientReady == lastStatus.ready
      && forall d :: d in outbox ==> d.tab in readyTabs
    }

    constructor()
      ensures Valid()
      ensures lastStatus == BackendStatus(false, "Initializing...", false)
      ensures !panelReady && readyTabs == {} && outbox == [] && backendGroups == [] && storedGroups == None
    {
      backendClientReady := false;
      lastStatus := BackendStatus(false, "Initializing...", false);
      panelReady := false;
      readyTabs := {};
      backendGroups := [];
      storedGroups := None;
      outbox := [];
    }

    /** `sendMessageToAllTabs(m)`, `openTabs` being the WhatsApp Web tabs the
        query listed. A failed send is only logged. */
    method SendToAllTabs(m: OutMessage, openTabs: seq<int>)
      requires Valid()
      modifies this
      ensures Valid()
      ensures outbox == old(outbox) + Deliveries(openTabs, readyTabs, m)
      ensures readyTabs == old(readyTabs) && lastStatus == old(lastStatus) && panelReady == old(panelReady)
      ensures backendClientReady == old(backendClientReady)
      ensures backendGroups == old(backendGroups) && storedGroups == old(storedGroups)
    {
      var i := |openTabs|;
      var sent: seq<Delivery> := [];
      while i > 0
        invariant 0 <= i <= |openTabs|
        invariant sent == Deliveries(openTabs[i..], readyTabs, m)
        invariant outbox == old(outbox)
      {
        i := i - 1;
        assert openTabs[i..][1..] == openTabs[i + 1..];
        if openTabs[i] in readyTabs {
          sent := [Delivery(openTabs[i], m)] + sent;
        }
      }
      assert openTabs[0..] == openTabs;
      outbox := outbox + sent;
    }

    /** One round of `fetchWhatsAppStatusFromBackend`. */
    method Poll(fetched: Fetched<BackendStatus>, openTabs: seq<int>) returns (status: BackendStatus)
      requires Valid()
      modifies this
      ensures Valid()
      ensures fetched.Fetched? ==> status == fetched.value
      ensures !fetched.Fetched? ==> status == BackendStatus(false, FailureText(fetched, "Backend status check failed: "), false)
      ensures lastStatus == status && backendClientReady == status.ready
      ensures var m := if fetched.Fetched? then Classify(status) else BackendError(status.message);
              outbox == old(outbox) + (if panelReady then Deliveries(openTabs, readyTabs, m) else [])
      ensures readyTabs == old(readyTabs) && panelReady == old(panelReady)
      ensures backendGroups == old(backendGroups) && storedGroups == old(storedGroups)
    {
      if fetched.Fetched? {
        status := fetched.value;
        backendClientReady := status.ready;
        lastStatus := status;
        if panelReady {
          SendToAllTabs(Classify(status), openTabs);
        }
      } else {
        var error := FailureText(fetched, "Backend status check failed: ");
        backendClientReady := false;
        lastStatus := BackendStatus(false, error, false);
        status := lastStatus;
        if panelReady {
          SendToAllTabs(BackendError(error), openTabs);
        }
      }
    }

    /** `fetchGroupsFromBackend(proactiveUpdate)`. `fetched` is not consulted
        when the backend client is not ready: no request is made then. */
    method FetchGroups(proactiveUpdate: bool, fetched: Fetched<seq<Group>>, openTabs: seq<int>) returns (groups: seq<Group>)
      requires Valid()
      modifies this
      ensures Valid()
      ensures !backendClientReady ==> groups == [] && outbox == old(outbox)
                                      && backendGroups == old(backendGroups) && storedGroups == old(storedGroups)
      ensures backendClientReady && fetched.Fetched? ==>
              groups == fetched.value && backendGroups == groups && storedGroups == Some(groups)
              && outbox == old(outbox)
      ensures backendClientReady && !fetched.Fetched? ==>
              groups == [] && backendGroups == old(backendGroups) && storedGroups == old(storedGroups)
              && outbox == old(outbox)
                           + (if proactiveUpdate && panelReady
                              then Deliveries(openTabs, readyTabs,
                                              BackendError("Group fetch error: " + FailureText(fetched, "Backend group list fetch failed: ")))
                              else [])
      ensures readyTabs == old(readyTabs) && panelReady == old(panelReady) && lastStatus == old(lastStatus)
      ensures backendClientReady == old(backendClientReady)
    {
      if !backendClientReady {
        return [];
      }
      if fetched.Fetched? {
        backendGroups := fetched.value;
        storedGroups := Some(backendGroups);
        groups := backendGroups;
      } else {
        if proactiveUpdate && panelReady {
          SendToAllTabs(BackendError("Group fetch error: " + FailureText(fetched, "Backend group list fetch failed: ")), openTabs);
        }
        groups := [];
      }
    }

    /** The `chrome.runtime.onMessage` listener; `senderTab` is the sender's tab
        id when the sender is a tab with a defined id. */
    method OnMessage(message: Incoming, senderTab: Option<int>, openTabs: seq<int>) returns (reply: Reply)
      requires Valid()
      modifies this
      ensures Valid()
      ensures message == PanelReady ==>
              panelReady
              && reply == PanelReadyReply(true, lastStatus.ready, lastStatus.message, lastStatus.qrCodeAvailable)
              && outbox == old(outbox) + (match HandshakePush(lastStatus)
                                          case Some(m) => Deliveries(openTabs, readyTabs, m)
                                          case None => [])
              && readyTabs == old(readyTabs)
      ensures message == ContentScriptReady ==>
              reply == Acknowledged && panelReady == old(panelReady) && outbox == old(outbox)
              && readyTabs == old(readyTabs) + (if senderTab.Some? then {senderTab.value} else {})
      ensures message.Unknown? ==>
              reply == UnknownTypeReply(false, "Unknown message type") && panelReady == old(panelReady)
              && outbox == old(outbox) && readyTabs == old(readyTabs)
      ensures old(panelReady) ==> panelReady
      ensures old(readyTabs) <= readyTabs
      ensures lastStatus == old(lastStatus) && backendClientReady == old(backendClientReady)
      ensures backendGroups == old(backendGroups) && storedGroups == old(storedGroups)
    {
      match message
      case PanelReady =>
        panelReady := true;
        reply := PanelReadyReply(true, lastStatus.ready, lastStatus.message, lastStatus.qrCodeAvailable);
        if lastStatus.qrCodeAvailable && !lastStatus.ready {
          SendToAllTabs(QrAvailable, openTabs);
        } else if lastStatus.ready {
          SendToAllTabs(ClientReady, openTabs);
        }
      case ContentScriptReady =>
        if senderTab.Some? {
          readyTabs := readyTabs + {senderTab.value};
        }
        reply := Acknowledged;
      case Unknown(_) =>
        reply := UnknownTypeReply(false, "Unknown message type");
    }

    /** The toolbar-icon click handler. */
    method OnActionClicked(tabId: int, url: Option<string>) returns (forwarded: bool)
      requires Valid()
      modifies this
      ensures Valid()
      ensures forwarded == ActionForwarded(tabId, url, readyTabs)
      ensures outbox == old(outbox) + (if forwarded then [Delivery(tabId, TogglePanelVisibility)] else [])
      ensures readyTabs == old(readyTabs) && panelReady == old(panelReady) && lastStatus == old(lastStatus)
      ensures backendClientReady == old(backendClientReady)
      ensures backendGroups == old(backendGroups) && storedGroups == old(storedGroups)
    {
      forwarded := ActionForwarded(tabId, url, readyTabs);
      if forwarded {
        outbox := outbox + [Delivery(tabId, TogglePanelVisibility)];
      }
    }
  }
}
