/**
 * The backend's WhatsApp session: the three module variables the client's
 * events update, the initialisation retry, and the two read operations the
 * routes use (`getGroups` and `getGroupMessages`).
 *
 * The whatsapp-web.js client is not modelled. Its events are method calls on
 * `Session`, and what its `initialize`, `getChats`, `getChatById` and
 * `fetchMessages` calls answer is passed in as a value or a function.
 */
module WhatsAppService {
  import opened Wrappers
  import opened JsText

  // ---------------------------------------------------------------------------
  // Entities

  /** The serialized id and the user part of a chat's WhatsApp id. */
  datatype ChatId = ChatId(serialized: string, user: string)

  datatype Chat = Chat(id: ChatId, name: string, isGroup: bool, unreadCount: Option<int>)

  /** A chat message; `timestamp` is in seconds since the epoch. */
  datatype WaMessage = WaMessage(id: string, body: string, timestamp: int, from: string,
                                 fromMe: bool, author: Option<string>)

  /** One entry of the group list the backend returns. */
  datatype Group = Group(id: string, name: string)

  // ---------------------------------------------------------------------------
  // Session state and client events

  /** The three module variables, as a value. */
  datatype SessionState = SessionState(ready: bool, qr: Option<string>, message: string)

  /** The client events the backend listens to. */
  datatype ClientEvent =
    | QrReceived(code: string)
    | LoadingScreen(percent: string, text: string)
    | Authenticated
    | AuthFailure(reason: string)
    | Ready
    | Disconnected(reason: string)

  const InitialMessage := "Initializing..."

  function InitialState(): SessionState {
    SessionState(false, None, InitialMessage)
  }

  /** What one event does to the session variables. */
  function Apply(s: SessionState, e: ClientEvent): SessionState {
    match e
    case QrReceived(code) => SessionState(false, Some(code), "QR code received. Please scan.")
    case LoadingScreen(percent, text) => s.(message := "Loading: " + percent + "% - " + text)
    case Authenticated => s.(qr := None, message := "Authenticated successfully.")
    case AuthFailure(reason) =>
      s.(ready := false,
         message := "Authentication failure: " + reason
                    + ". Consider deleting .wwebjs_auth folder and restarting.")
    case Ready => s.(ready := true, message := "Client is ready and connected to WhatsApp.")
    case Disconnected(reason) =>
      SessionState(false, None, "Client disconnected: " + reason + ". Attempting to reconnect...")
  }

  /** The session variables after a sequence of events, oldest first. */
  function Replay(s: SessionState, events: seq<ClientEvent>): SessionState {
    if events == [] then s else Apply(Replay(s, events[..|events| - 1]), events[|events| - 1])
  }

  /** How an event sets readiness: `Some(b)` when it assigns `b`, `None` when it leaves it. */
  function ReadinessEffect(e: ClientEvent): Option<bool> {
    match e
    case QrReceived(_) => Some(false)
    case AuthFailure(_) => Some(false)
    case Ready => Some(true)
    case Disconnected(_) => Some(false)
    case _ => None
  }

  /** How an event sets the QR code: `Some(q)` when it assigns `q`, `None` when it leaves it. */
  function QrEffect(e: ClientEvent): Option<Option<string>> {
    match e
    case QrReceived(code) => Some(Some(code))
    case Authenticated => Some(None)
    case Disconnected(_) => Some(None)
    case _ => None
  }

  /** The value the latest event with an effect assigned, if any did. */
  function Latest<T>(events: seq<ClientEvent>, effect: ClientEvent -> Option<T>): Option<T> {
    if events == [] then None
    else if effect(events[|events| - 1]).Some? then effect(events[|events| - 1])
    else Latest(events[..|events| - 1], effect)
  }

  /** The client is ready exactly when the latest event that touches readiness is
      `ready` (or, with no such event, when it was ready before). */
  lemma {:induction false} ReplayReadiness(s: SessionState, events: seq<ClientEvent>)
    ensures Replay(s, events).ready == Latest(events, ReadinessEffect).GetOr(s.ready)
  {
    if events != [] {
      ReplayReadiness(s, events[..|events| - 1]);
    }
  }

  /** A QR code is held exactly when the latest event that touches it is `qr`,
      and it is that event's code. */
  lemma {:induction false} ReplayQr(s: SessionState, events: seq<ClientEvent>)
    ensures Replay(s, events).qr == Latest(events, QrEffect).GetOr(s.qr)
  {
    if events != [] {
      ReplayQr(s, events[..|events| - 1]);
    }
  }

  /** What one attempt of `initialize()` does. */
  datatype InitOutcome = Succeeded | Failed(errorMessage: Option<string>)

  /** The status text set when an attempt fails; `err?.message || 'Unknown error'`. */
  function InitErrorText(errorMessage: Option<string>): (t: string)
    ensures Truthy(errorMessage) ==> t == "Client initialization error: " + errorMessage.value
    ensures !Truthy(errorMessage) ==> t == "Client initialization error: Unknown error"
  {
    "Client initialization error: " + Or(errorMessage, Some("Unknown error")).GetOr("")
  }

  /** The result of an initialisation run: the client id (the attempt that
      succeeded) or the rethrown error, how many attempts were made, and the
      status text the last failure set, if any attempt failed. */
  datatype InitReport = InitReport(result: Result<nat, Option<string>>, attempts: nat, status: Option<string>)

  /** The retry by recursion: attempt `k` with `retries` retries left,
      `status` being what earlier failures left in the status variable. */
  function InitRun(retries: nat, outcome: nat -> InitOutcome, k: nat, status: Option<string>): InitReport
    decreases retries
  {
    match outcome(k)
    case Succeeded => InitReport(Ok(k), k + 1, status)
    case Failed(e) =>
      if retries > 0 then InitRun(retries - 1, outcome, k + 1, Some(InitErrorText(e)))
      else InitReport(Err(e), k + 1, Some(InitErrorText(e)))
  }

  /** When every attempt fails, there are exactly `retries + 1` of them, the last
      error is rethrown and the status text describes it. */
  lemma {:induction false} InitAllFail(retries: nat, outcome: nat -> InitOutcome, k: nat, status: Option<string>)
    requires forall j :: k <= j <= k + retries ==> outcome(j).Failed?
    ensures var r := InitRun(retries, outcome, k, status);
            r.attempts == k + retries + 1
            && r.result == Err(outcome(k + retries).errorMessage)
            && r.status == Some(InitErrorText(outcome(k + retries).errorMessage))
  {
    if retries > 0 {
      InitAllFail(retries - 1, outcome, k + 1, Some(InitErrorText(outcome(k).errorMessage)));
    }
  }

  /** The first attempt that succeeds within the retry budget gives the client,
      and no further attempt is made. */
  lemma {:induction false} InitFirstSuccess(retries: nat, outcome: nat -> InitOutcome, k: nat, status: Option<string>, j: nat)
    requires k <= j <= k + retries
    requires forall i :: k <= i < j ==> outcome(i).Failed?
    requires outcome(j).Succeeded?
    ensures InitRun(retries, outcome, k, status).result == Ok(j)
    ensures InitRun(retries, outcome, k, status).attempts == j + 1
  {
    if j > k {
      InitFirstSuccess(retries - 1, outcome, k + 1, Some(InitErrorText(outcome(k).errorMessage)), j);
    }
  }

  /** There are never more than `retries + 1` attempts. */
  lemma {:induction false} InitAttemptsBound(retries: nat, outcome: nat -> InitOutcome, k: nat, status: Option<string>)
    ensures k < InitRun(retries, outcome, k, status).attempts <= k + retries + 1
  {
    if outcome(k).Failed? && retries > 0 {
      InitAttemptsBound(retries - 1, outcome, k + 1, Some(InitErrorText(outcome(k).errorMessage)));
    }
  }

  /** The module state of the WhatsApp service. `client` is the id of the
      attempt whose client was kept, unset until an initialisation succeeds. */
  class Session {
    var ready: bool
    var qr: Option<string>
    var message: string
    var client: Option<nat>

    function State(): SessionState
      reads this
    {
      SessionState(ready, qr, message)
    }

    constructor()
      ensures State() == InitialState() && client == None
    {
      ready := false;
      qr := None;
      message := InitialMessage;
      client := None;
    }

    method OnQr(code: string)
      modifies this
      ensures State() == Apply(old(State()), QrReceived(code)) && client == old(client)
    {
      qr := Some(code);
      message := "QR code received. Please scan.";
      ready := false;
    }

    method OnLoadingScreen(percent: string, text: string)
      modifies this
      ensures State() == Apply(old(State()), LoadingScreen(percent, text)) && client == old(client)
    {
      message := "Loading: " + percent + "% - " + text;
    }

    method OnAuthenticated()
      modifies this
      ensures State() == Apply(old(State()), Authenticated) && client == old(client)
    {
      message := "Authenticated successfully.";
      qr := None;
    }

    method OnAuthFailure(reason: string)
      modifies this
      ensures State() == Apply(old(State()), AuthFailure(reason)) && client == old(client)
    {
      message := "Authentication failure: " + reason
                 + ". Consider deleting .wwebjs_auth folder and restarting.";
      ready := false;
    }

    method OnReady()
      modifies this
      ensures State() == Apply(old(State()), Ready) && client == old(client)
    {
      ready := true;
      message := "Client is ready and connected to WhatsApp.";
    }

    method OnDisconnected(reason: string)
      modifies this
      ensures State() == Apply(old(State()), Disconnected(reason)) && client == old(client)
    {
      ready := false;
      qr := None;
      message := "Client disconnected: " + reason + ". Attempting to reconnect...";
    }

    /** `initializeWhatsAppClient(retries)`: attempt `k` (from 0) creates a new
        client and calls its `initialize()`, whose outcome is `outcome(k)`. A
        success keeps that client; a failure records the error in the status
        text and retries while retries are left, then rethrows. */
    method Initialize(retries: nat, outcome: nat -> InitOutcome) returns (r: Result<nat, Option<string>>, attempts: nat)
      modifies this
      ensures var run := InitRun(retries, outcome, 0, None);
              r == run.result && attempts == run.attempts
              && message == run.status.GetOr(old(message))
              && client == (if r.Ok? then Some(r.value) else old(client))
              && ready == old(ready) && qr == old(qr)
    {
      var left := retries;
      var k := 0;
      var status: Option<string> := None;
      while true
        invariant left + k == retries
        invariant InitRun(retries, outcome, 0, None) == InitRun(left, outcome, k, status)
        invariant message == status.GetOr(old(message))
        invariant client == old(client) && ready == old(ready) && qr == old(qr)
        decreases left
      {
        match outcome(k)
        case Succeeded =>
          client := Some(k);
          return Ok(k), k + 1;
        case Failed(e) =>
          message := InitErrorText(e);
          status := Some(message);
          if left == 0 {
            return Err(e), k + 1;
          }
          left := left - 1;
          k := k + 1;
      }
    }

    /** `getClient()`: the kept client, or the error when none was kept. */
    function GetClient(): (r: Result<nat, string>)
      reads this
      ensures r.Ok? <==> client.Some?
      ensures r.Ok? ==> r.value == client.value
      ensures r.Err? ==> r.error == "WhatsApp client is not initialized."
    {
      if client.None? then Err("WhatsApp client is not initialized.") else Ok(client.value)
    }
  }

  // ---------------------------------------------------------------------------
  // getGroups

  const NotReadyError := "WhatsApp client not ready."

  /** `chat.name || chat.id.user`. */
  function DisplayName(c: Chat): (name: string)
    ensures c.name != "" ==> name == c.name
    ensures c.name == "" ==> name == c.id.user
  {
    if c.name != "" then c.name else c.id.user
  }

  /** `chats.filter(isGroup).map(...)`. */
  function GroupsOf(chats: seq<Chat>): (groups: seq<Group>)
    ensures |groups| <= |chats|
    ensures forall g :: g in groups <==> exists c :: c in chats && c.isGroup && g == Group(c.id.serialized, DisplayName(c))
  {
    if chats == [] then []
    else
      var rest := GroupsOf(chats[1..]);
      assert forall c :: c in chats <==> c == chats[0] || c in chats[1..];
      if chats[0].isGroup then [Group(chats[0].id.serialized, DisplayName(chats[0]))] + rest else rest
  }

  /** The group list keeps the chats' order: listing two runs of chats one
      after the other lists their groups one after the other. */
  lemma {:induction false} GroupsOfAppend(a: seq<Chat>, b: seq<Chat>)
    ensures GroupsOf(a + b) == GroupsOf(a) + GroupsOf(b)
  {
    if a == [] {
      assert a + b == b;
    } else {
      assert (a + b)[0] == a[0] && (a + b)[1..] == a[1..] + b;
      GroupsOfAppend(a[1..], b);
      var x := if a[0].isGroup then [Group(a[0].id.serialized, DisplayName(a[0]))] else [];
      assert GroupsOf(a) == x + GroupsOf(a[1..]);
      assert GroupsOf(a + b) == x + (GroupsOf(a[1..]) + GroupsOf(b));
    }
  }

  /** `getGroups()`: `chats` is what `getChats()` answered (`Err` when it threw,
      rethrown as is); `hasClient` says whether a client was kept. */
  function GetGroups(ready: bool, hasClient: bool, chats: Result<seq<Chat>, string>): (r: Result<seq<Group>, string>)
    ensures !ready ==> r == Err(NotReadyError)
    ensures ready && !hasClient ==> r == Err("WhatsApp client is not initialized.")
    ensures ready && hasClient && chats.Err? ==> r == Err(chats.error)
    ensures r.Ok? <==> ready && hasClient && chats.Ok?
    ensures r.Ok? ==> r.value == GroupsOf(chats.value)
  {
    if !ready then Err(NotReadyError)
    else if !hasClient then Err("WhatsApp client is not initialized.")
    else match chats
      case Err(e) => Err(e)
      case Ok(cs) => Ok(GroupsOf(cs))
  }

  // ---------------------------------------------------------------------------
  // getGroupMessages: pool size

  /** `effectiveMessageCount`: the unread counter when only unread messages are
      asked for and the counter is positive, the requested count otherwise. */
  function EffectiveCount(messageCount: int, fetchOnlyUnread: bool, unreadCount: Option<int>): (n: int)
    ensures fetchOnlyUnread && unreadCount.Some? && unreadCount.value > 0 ==> n == unreadCount.value
    ensures !(fetchOnlyUnread && unreadCount.Some? && unreadCount.value > 0) ==> n == messageCount
  {
    if fetchOnlyUnread && unreadCount.Some? && unreadCount.value > 0 then unreadCount.value else messageCount
  }

  /** `messagesToFetch`: at least 1000 when both dates are given. */
  function FetchLimit(effective: int, startDate: Option<string>, endDate: Option<string>): (n: int)
    ensures Truthy(startDate) && Truthy(endDate) ==> n >= 1000 && n >= effective && (n == effective || n == 1000)
    ensures !(Truthy(startDate) && Truthy(endDate)) ==> n == effective
  {
    if Truthy(startDate) && Truthy(endDate) then (if effective > 1000 then effective else 1000) else effective
  }

  // ---------------------------------------------------------------------------
  // getGroupMessages: dates

  /** The arguments handed to `new Date(year, month, day)`; `month` counts from 0. */
  datatype CalendarDate = CalendarDate(year: int, month: int, day: int)

  /** `parseDdMmYyyy`: three `/`-separated parts, each read by `parseInt`. */
  function ParseDdMmYyyy(s: string): (r: Option<CalendarDate>)
    ensures |Split(s, '/')| != 3 ==> r == None
    ensures r.Some? <==> |Split(s, '/')| == 3 && ParseInt(Split(s, '/')[0]).Some?
                         && ParseInt(Split(s, '/')[1]).Some? && ParseInt(Split(s, '/')[2]).Some?
  {
    var parts := Split(s, '/');
    if |parts| == 3 then
      match (ParseInt(parts[0]), ParseInt(parts[1]), ParseInt(parts[2]))
      case (Some(day), Some(month), Some(year)) => Some(CalendarDate(year, month - 1, day))
      case _ => None
    else None
  }

  /** The text `D/M/Y` of three numbers. */
  function FormatDdMmYyyy(day: nat, month: nat, year: nat): string {
    NatToString(day) + "/" + NatToString(month) + "/" + NatToString(year)
  }

  /** Reading back a written date gives its numbers, the month moved to count from 0. */
  lemma {:induction false} ParseFormattedDate(day: nat, month: nat, year: nat)
    ensures ParseDdMmYyyy(FormatDdMmYyyy(day, month, year)) == Some(CalendarDate(year, month - 1, day))
  {
    var d, m, y := NatToString(day), NatToString(month), NatToString(year);
    var parts := Split(FormatDdMmYyyy(day, month, year), '/');
    FormattedDateSplits(d, m, y);
    assert parts == [d, m, y];
    ParseIntOfNat(day);
    ParseIntOfNat(month);
    ParseIntOfNat(year);
    assert ParseInt(parts[0]) == Some(day as int);
    assert ParseInt(parts[1]) == Some(month as int);
    assert ParseInt(parts[2]) == Some(year as int);
  }

  lemma {:induction false} FormattedDateSplits(d: string, m: string, y: string)
    requires AllDigits(d) && AllDigits(m) && AllDigits(y)
    ensures Split(d + "/" + m + "/" + y, '/') == [d, m, y]
  {
    var parts := [d, m, y];
    forall i | 0 <= i < 3 ensures '/' !in parts[i] {
      assert AllDigits(parts[i]) && !IsDigit('/');
    }
    assert parts[1..] == [m, y] && [m, y][1..] == [y];
    assert Join([m, y], '/') == m + ['/'] + y;
    assert Join(parts, '/') == d + ['/'] + (m + ['/'] + y);
    assert d + "/" + m + "/" + y == d + ['/'] + (m + ['/'] + y);
    SplitOfJoin(parts, '/');
  }

  /** The inclusive day-range test. `start` and `end` are the local midnights
      of the first and the last day in milliseconds, `None` for an invalid
      date; an invalid date makes every comparison false. The last day ends
      at 23:59:59.999. */
  predicate InDayRange(timestamp: int, start: Option<int>, end: Option<int>) {
    start.Some? && end.Some? && timestamp * 1000 >= start.value && timestamp * 1000 <= end.value + 86_399_999
  }

  /** `messages.filter(...)` with the day-range test. */
  function FilterByDays(messages: seq<WaMessage>, start: Option<int>, end: Option<int>): (r: seq<WaMessage>)
    ensures |r| <= |messages|
    ensures forall m :: m in r <==> m in messages && InDayRange(m.timestamp, start, end)
  {
    if messages == [] then []
    else
      var rest := FilterByDays(messages[1..], start, end);
      assert forall m :: m in messages <==> m == messages[0] || m in messages[1..];
      if InDayRange(messages[0].timestamp, start, end) then [messages[0]] + rest else rest
  }

  /** Filtering keeps the order: filtering two runs one after the other is
      filtering each. */
  lemma {:induction false} FilterByDaysAppend(a: seq<WaMessage>, b: seq<WaMessage>, start: Option<int>, end: Option<int>)
    ensures FilterByDays(a + b, start, end) == FilterByDays(a, start, end) + FilterByDays(b, start, end)
  {
    if a == [] {
      assert a + b == b;
    } else {
      assert (a + b)[0] == a[0] && (a + b)[1..] == a[1..] + b;
      FilterByDaysAppend(a[1..], b, start, end);
      var x := if InDayRange(a[0].timestamp, start, end) then [a[0]] else [];
      assert FilterByDays(a, start, end) == x + FilterByDays(a[1..], start, end);
      assert FilterByDays(a + b, start, end) == x + (FilterByDays(a[1..], start, end) + FilterByDays(b, start, end));
      assert x + (FilterByDays(a[1..], start, end) + FilterByDays(b, start, end))
          == (x + FilterByDays(a[1..], start, end)) + FilterByDays(b, start, end);
    }
  }

  /** The date filter step: applied only when both dates are given and both
      parse; `dayStart` is the local midnight of a calendar date in
      milliseconds, `None` when `new Date` gives an invalid date. */
  function ApplyDateFilter(messages: seq<WaMessage>, startDate: Option<string>, endDate: Option<string>,
                           dayStart: CalendarDate -> Option<int>): (r: seq<WaMessage>)
    ensures !(Truthy(startDate) && Truthy(endDate)) ==> r == messages
    ensures (Truthy(startDate) && Truthy(endDate)
             && (ParseDdMmYyyy(startDate.value).None? || ParseDdMmYyyy(endDate.value).None?))
            ==> r == messages
    ensures (Truthy(startDate) && Truthy(endDate)
             && ParseDdMmYyyy(startDate.value).Some? && ParseDdMmYyyy(endDate.value).Some?)
            ==> forall m :: m in r <==> (m in messages
                  && InDayRange(m.timestamp, dayStart(ParseDdMmYyyy(startDate.value).value),
                                dayStart(ParseDdMmYyyy(endDate.value).value)))
  {
    if Truthy(startDate) && Truthy(endDate) then
      match (ParseDdMmYyyy(startDate.value), ParseDdMmYyyy(endDate.value))
      case (Some(s), Some(e)) => FilterByDays(messages, dayStart(s), dayStart(e))
      case _ => messages
    else messages
  }

  // ---------------------------------------------------------------------------
  // getGroupMessages

  /** What `getChatById` answered: a chat, nothing, or an exception. */
  datatype ChatLookup = Found(chat: Chat) | NotFound | LookupFailed

  function FetchFailedError(groupId: string): string {
    "Failed to fetch messages for group " + groupId + "."
  }

  /** `getGroupMessages(groupId, messageCount, startDate, endDate, fetchOnlyUnread)`.
      `fetch(limit)` is what `chat.fetchMessages({limit})` answers, `None` when it
      throws. Readiness and the client are checked before the `try`; every
      failure inside it is rewrapped. */
  function GetGroupMessages(ready: bool, hasClient: bool, groupId: string, messageCount: int,
                            startDate: Option<string>, endDate: Option<string>, fetchOnlyUnread: bool,
                            lookup: ChatLookup, fetch: int -> Option<seq<WaMessage>>,
                            dayStart: CalendarDate -> Option<int>): (r: Result<seq<WaMessage>, string>)
    ensures !ready ==> r == Err(NotReadyError)
    ensures ready && !hasClient ==> r == Err("WhatsApp client is not initialized.")
    ensures ready && hasClient && !(lookup.Found? && lookup.chat.isGroup) ==> r == Err(FetchFailedError(groupId))
    ensures ready && hasClient && lookup.Found? && lookup.chat.isGroup ==>
            var limit := FetchLimit(EffectiveCount(messageCount, fetchOnlyUnread, lookup.chat.unreadCount), startDate, endDate);
            (fetch(limit).None? ==> r == Err(FetchFailedError(groupId)))
            && (fetch(limit).Some? ==> r == Ok(ApplyDateFilter(fetch(limit).value, startDate, endDate, dayStart)))
  {
    if !ready then Err(NotReadyError)
    else if !hasClient then Err("WhatsApp client is not initialized.")
    else match lookup
      case Found(chat) =>
        if !chat.isGroup then Err(FetchFailedError(groupId))
        else
          var limit := FetchLimit(EffectiveCount(messageCount, fetchOnlyUnread, chat.unreadCount), startDate, endDate);
          (match fetch(limit)
           case None => Err(FetchFailedError(groupId))
           case Some(messages) => Ok(ApplyDateFilter(messages, startDate, endDate, dayStart)))
      case _ => Err(FetchFailedError(groupId))
  }
}
