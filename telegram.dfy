/**
 * The Telegram bot: an allow-list gate, the `/start` menu, the inline-button
 * callbacks and the free-text messages that complete a pending conversation.
 * The bot keeps one pending conversation per chat in `conversations`; callbacks
 * write it and the next non-command text message consumes it.
 *
 * Replies are values naming what the bot says and the fields it fills in;
 * the registry is an oracle and every handler reports the calls it made to it.
 */
module Telegram {
  import opened Wrappers
  import opened Text
  import opened Registry
  import MonitorManager

  type ChatId = int

  /** `isUserAllowed`: exact, case-sensitive membership of the username in the allow-list. */
  function IsUserAllowed(allowed: seq<string>, username: Option<string>): (b: bool)
    ensures b <==> username.Some? && username.value in allowed
  {
    username.Some? && Includes(allowed, username.value)
  }

  // ---------------------------------------------------------------------------
  // Callback tokens

  const StartTypePrefix := "start_monitor_"
  const ViewPrefix := "view_monitor_"
  const DeletePrefix := "delete_monitor_"

  /** What an inline button's `callback_data` asks for. */
  datatype Callback =
    | StartMenu
    | StartType(kind: MonitorKind)
    | StopPrompt
    | ListAll
    | DetailsPrompt
    | ViewByHandle(handle: string)
    | DeleteByHandle(handle: string)
    | PumpFunNotice
    | UnknownCallback(data: string)

  /** The callback handler's chain of tests on `data`, in source order. */
  function DecodeCallback(data: string): Callback {
    if data == "start_monitor" then StartMenu
    else if data == StartTypePrefix + KindName(UserTweets) then StartType(UserTweets)
    else if data == StartTypePrefix + KindName(UserFollowing) then StartType(UserFollowing)
    else if data == StartTypePrefix + KindName(UserProfile) then StartType(UserProfile)
    else if data == "stop_monitor" then StopPrompt
    else if data == "list_monitors" then ListAll
    else if data == "monitor_details" then DetailsPrompt
    else if StartsWith(data, ViewPrefix) then ViewByHandle(data[|ViewPrefix|..])
    else if StartsWith(data, DeletePrefix) then DeleteByHandle(data[|DeletePrefix|..])
    else if data == "pump_fun_disabled" then PumpFunNotice
    else UnknownCallback(data)
  }

  /** The `callback_data` the bot puts on a button for an action. */
  function EncodeCallback(c: Callback): string
    requires !c.UnknownCallback?
  {
    match c
    case StartMenu => "start_monitor"
    case StartType(k) => StartTypePrefix + KindName(k)
    case StopPrompt => "stop_monitor"
    case ListAll => "list_monitors"
    case DetailsPrompt => "monitor_details"
    case ViewByHandle(h) => ViewPrefix + h
    case DeleteByHandle(h) => DeletePrefix + h
    case PumpFunNotice => "pump_fun_disabled"
  }

  /** Every button the bot can emit is read back as the action it was made for. */
  lemma CallbackRoundTrip(c: Callback)
    requires !c.UnknownCallback?
    ensures DecodeCallback(EncodeCallback(c)) == c
  {
    var s := EncodeCallback(c);
    match c
    case StartMenu =>
    case StartType(k) =>
      assert s[0] == 's' && |s| in {25, 28, 26};
      NotPrefixed(s, ViewPrefix, 0);
      NotPrefixed(s, DeletePrefix, 0);
    case StopPrompt =>
      assert |s| == 12;
    case ListAll =>
      assert s[0] == 'l' && |s| == 13;
    case DetailsPrompt =>
      assert s[0] == 'm' && |s| == 15;
    case ViewByHandle(h) =>
      assert s[0] == 'v' && s[..|ViewPrefix|] == ViewPrefix && s[|ViewPrefix|..] == h;
    case DeleteByHandle(h) =>
      assert s[0] == 'd' && s[..|DeletePrefix|] == DeletePrefix && s[|DeletePrefix|..] == h;
      NotPrefixed(s, ViewPrefix, 0);
    case PumpFunNotice =>
      assert s[0] == 'p' && |s| == 17;
      NotPrefixed(s, ViewPrefix, 0);
      NotPrefixed(s, DeletePrefix, 0);
  }

  /** A text that differs from `p` at position `i` does not start with `p`. */
  lemma NotPrefixed(s: string, p: string, i: nat)
    requires i < |s| && i < |p| && s[i] != p[i]
    ensures !StartsWith(s, p)
  {
  }

  /** Every token the handler recognises is the button of the action it decodes to. */
  lemma CallbackTokenRoundTrip(data: string)
    requires !DecodeCallback(data).UnknownCallback?
    ensures EncodeCallback(DecodeCallback(data)) == data
  {
    if data in ["start_monitor", "stop_monitor", "list_monitors", "monitor_details"] {
    } else if data in TypeMenu {
    } else if StartsWith(data, ViewPrefix) {
      assert data == ViewPrefix + data[|ViewPrefix|..];
    } else if StartsWith(data, DeletePrefix) {
      assert data == DeletePrefix + data[|DeletePrefix|..];
    }
  }

  /** The buttons of the `/start` menu. */
  const MainMenu: seq<string> :=
    ["start_monitor", "stop_monitor", "list_monitors", "monitor_details", "pump_fun_disabled"]

  /** The buttons of the monitor-type submenu. */
  const TypeMenu: seq<string> :=
    [StartTypePrefix + KindName(UserTweets), StartTypePrefix + KindName(UserFollowing),
     StartTypePrefix + KindName(UserProfile)]

  /** Each menu button reaches a branch of the callback handler; the submenu selects the three kinds. */
  lemma MenusDecode()
    ensures forall t :: t in MainMenu ==> !DecodeCallback(t).UnknownCallback?
    ensures DecodeCallback(TypeMenu[0]) == StartType(UserTweets)
    ensures DecodeCallback(TypeMenu[1]) == StartType(UserFollowing)
    ensures DecodeCallback(TypeMenu[2]) == StartType(UserProfile)
  {
  }

  // ---------------------------------------------------------------------------
  // Replies and the registry lookups behind them

  /** One line of the monitor listing: handle (or "N/A"), type and creation time. */
  datatype ListEntry = ListEntry(handle: string, monitorType: string, createdAt: string)

  /** What the bot sends back. */
  datatype Reply =
    | NotAuthorized
    | Welcome(buttons: seq<string>)
    | ChooseType(buttons: seq<string>)
    | AskHandle
    | AskStopHandle
    | AskMonitorId
    | ActiveMonitors(entries: seq<ListEntry>)
    | NoActiveMonitors
    | MonitorDetailsReply(screenName: Option<string>, monitorType: string, createdAt: string, id: string)
    | NoMonitorFound(handle: string)
    | MonitorDeleted(handle: string, id: string)
    | PumpFunDisabled
    | UnknownCommand
    | RequestFailed
    | MonitorCreated(id: string)
    | CreateRejected
    | AlreadyExists(handle: string, buttons: seq<string>)
    | CreateFailed(message: string)
    | InputFailed(message: string)
    | DetailsUnavailable

  /** A reply and the registry calls made to produce it, in order. */
  datatype Outcome = Outcome(reply: Reply, calls: seq<Call>)

  /** The listing line of one monitor. */
  function EntryOf(m: MonitorRecord): ListEntry {
    ListEntry(if Truthy(m.screenName) then m.screenName.value else "N/A", m.monitorType, m.createdAt)
  }

  /** The listing lines of all monitors, in list order. */
  function Entries(ms: seq<MonitorRecord>): seq<ListEntry> {
    seq(|ms|, i requires 0 <= i < |ms| => EntryOf(ms[i]))
  }

  /** The `forEach` that accumulates the listing, one line per monitor. */
  method BuildEntries(ms: seq<MonitorRecord>) returns (entries: seq<ListEntry>)
    ensures |entries| == |ms|
    ensures forall i :: 0 <= i < |ms| ==> entries[i] == EntryOf(ms[i])
  {
    entries := [];
    var i := 0;
    while i < |ms|
      invariant 0 <= i <= |ms|
      invariant |entries| == i
      invariant forall j :: 0 <= j < i ==> entries[j] == EntryOf(ms[j])
    {
      entries := entries + [EntryOf(ms[i])];
      i := i + 1;
    }
  }

  /** The `list_monitors` button. */
  function ListOutcome(svc: Service): (o: Outcome)
    ensures o.calls == [ListCall(1)]
    ensures svc.list(1).Failure? ==> o.reply == RequestFailed
    ensures svc.list(1).Success? ==>
              (o.reply == NoActiveMonitors <==>
                 svc.list(1).value.data.None? || |svc.list(1).value.data.value| == 0)
    ensures svc.list(1).Success? && svc.list(1).value.data.Some? && |svc.list(1).value.data.value| > 0 ==>
              o.reply.ActiveMonitors? &&
              |o.reply.entries| == |svc.list(1).value.data.value| &&
              forall i :: 0 <= i < |o.reply.entries| ==> o.reply.entries[i] == EntryOf(svc.list(1).value.data.value[i])
  {
    match svc.list(1)
    case Failure(_) => Outcome(RequestFailed, [ListCall(1)])
    case Success(resp) =>
      if resp.data.Some? && |resp.data.value| > 0 then Outcome(ActiveMonitors(Entries(resp.data.value)), [ListCall(1)])
      else Outcome(NoActiveMonitors, [ListCall(1)])
  }

  /** The `find` predicate: a screen name is present and lower-cases to `key`. */
  predicate HasHandle(m: MonitorRecord, key: string) {
    Truthy(m.screenName) && Lower(m.screenName.value) == key
  }

  /** `i` is the first monitor of `ms` with handle `key`. */
  ghost predicate IsFirstMatch(ms: seq<MonitorRecord>, key: string, i: int) {
    0 <= i < |ms| && HasHandle(ms[i], key) && forall j :: 0 <= j < i ==> !HasHandle(ms[j], key)
  }

  /** `ms.find(...)` as an index. */
  function FindByHandle(ms: seq<MonitorRecord>, key: string): (r: Option<nat>)
    ensures r.Some? ==> IsFirstMatch(ms, key, r.value)
    ensures r.None? <==> forall i :: 0 <= i < |ms| ==> !HasHandle(ms[i], key)
  {
    if ms == [] then None
    else if HasHandle(ms[0], key) then Some(0)
    else
      match FindByHandle(ms[1..], key)
      case Some(i) =>
        assert forall j :: 0 < j <= i ==> ms[j] == ms[1..][j - 1];
        Some(i + 1)
      case None =>
        assert forall j :: 0 < j < |ms| ==> ms[j] == ms[1..][j - 1];
        None
  }

  /** The thrown message when the listing has no `data` array to search. */
  const NoDataError := "Cannot read properties of undefined (reading 'find')"

  /** The monitors of the listing, when the registry answered with a `data` array. */
  function Listed(svc: Service): Option<seq<MonitorRecord>> {
    if svc.list(1).Success? && svc.list(1).value.data.Some? then svc.list(1).value.data else None
  }

  /** What a search of the listing for a handle can end in. */
  datatype Lookup = LookupFailed(message: string) | NotFound | Found(monitor: MonitorRecord)

  /** `listActiveMonitors()` followed by `monitors.data.find(...)` for handle `key`. */
  function LookupByHandle(svc: Service, key: string): (r: Lookup)
    ensures r.Found? ==> HasHandle(r.monitor, key)
    ensures r.Found? ==> Listed(svc).Some? && exists i :: IsFirstMatch(Listed(svc).value, key, i) && Listed(svc).value[i] == r.monitor
    ensures r.NotFound? <==> Listed(svc).Some? && forall i :: 0 <= i < |Listed(svc).value| ==> !HasHandle(Listed(svc).value[i], key)
    ensures svc.list(1).Failure? ==> r == LookupFailed(svc.list(1).error.message)
    ensures svc.list(1).Success? && Listed(svc).None? ==> r == LookupFailed(NoDataError)
    ensures r.LookupFailed? <==> Listed(svc).None?
    ensures Listed(svc).Some? && (exists i :: 0 <= i < |Listed(svc).value| && HasHandle(Listed(svc).value[i], key)) ==>
              r.Found?
  {
    match svc.list(1)
    case Failure(e) => LookupFailed(e.message)
    case Success(resp) =>
      match resp.data
      case None => LookupFailed(NoDataError)
      case Some(ms) =>
        match FindByHandle(ms, key)
        case Some(i) => Found(ms[i])
        case None => NotFound
  }

  /** The `view_monitor_<handle>` button: details of the first monitor with that handle. */
  function ViewOutcome(svc: Service, handle: string): (o: Outcome)
    ensures o.calls == [ListCall(1)]
    ensures o.reply.MonitorDetailsReply? <==> LookupByHandle(svc, handle).Found?
    ensures LookupByHandle(svc, handle).Found? ==>
              var m := LookupByHandle(svc, handle).monitor;
              o.reply == MonitorDetailsReply(m.screenName, m.monitorType, m.createdAt, m.id)
    ensures LookupByHandle(svc, handle).NotFound? ==> o.reply == NoMonitorFound(handle)
    ensures LookupByHandle(svc, handle).LookupFailed? ==> o.reply == RequestFailed
  {
    match LookupByHandle(svc, handle)
    case Found(m) => Outcome(MonitorDetailsReply(m.screenName, m.monitorType, m.createdAt, m.id), [ListCall(1)])
    case NotFound => Outcome(NoMonitorFound(handle), [ListCall(1)])
    case LookupFailed(_) => Outcome(RequestFailed, [ListCall(1)])
  }

  /** The `delete_monitor_<handle>` button: delete the first monitor with that handle. */
  function DeleteOutcome(svc: Service, handle: string): (o: Outcome)
    ensures 1 <= |o.calls| <= 2 && o.calls[0] == ListCall(1)
    ensures |o.calls| == 2 <==> LookupByHandle(svc, handle).Found?
    ensures |o.calls| == 2 ==> o.calls[1] == DeleteCall(LookupByHandle(svc, handle).monitor.id)
    ensures o.reply.MonitorDeleted? ==>
              LookupByHandle(svc, handle).Found? &&
              var m := LookupByHandle(svc, handle).monitor;
              svc.delete(m.id).Success? && o.reply == MonitorDeleted(m.screenName.value, m.id)
    ensures LookupByHandle(svc, handle).Found? ==>
              var m := LookupByHandle(svc, handle).monitor;
              o.reply == if svc.delete(m.id).Success? then MonitorDeleted(m.screenName.value, m.id) else RequestFailed
    ensures LookupByHandle(svc, handle).NotFound? ==> o.reply == NoMonitorFound(handle)
    ensures LookupByHandle(svc, handle).LookupFailed? ==> o.reply == RequestFailed
  {
    match LookupByHandle(svc, handle)
    case Found(m) =>
      var d := MonitorManager.DeleteMonitor(svc, m.id);
      Outcome(if d.result.Success? then MonitorDeleted(m.screenName.value, m.id) else RequestFailed,
              [ListCall(1)] + d.calls)
    case NotFound => Outcome(NoMonitorFound(handle), [ListCall(1)])
    case LookupFailed(_) => Outcome(RequestFailed, [ListCall(1)])
  }

  /** What the callback handler answers for an allowed user, and which registry calls it makes. */
  function CallbackOutcome(cb: Callback, svc: Service): (o: Outcome)
    ensures forall c :: c in o.calls ==> !c.CreateCall? && !c.DetailsCall?
    ensures (exists c :: c in o.calls && c.DeleteCall?) ==> cb.DeleteByHandle?
    ensures o.calls != [] <==> cb.ListAll? || cb.ViewByHandle? || cb.DeleteByHandle?
    ensures cb.ListAll? ==> o == ListOutcome(svc)
    ensures cb.ViewByHandle? ==> o == ViewOutcome(svc, cb.handle)
    ensures cb.DeleteByHandle? ==> o == DeleteOutcome(svc, cb.handle)
    ensures cb.StartMenu? ==> o.reply == ChooseType(TypeMenu)
    ensures cb.StartType? ==> o.reply == AskHandle
    ensures cb.StopPrompt? ==> o.reply == AskStopHandle
    ensures cb.DetailsPrompt? ==> o.reply == AskMonitorId
    ensures cb.PumpFunNotice? ==> o.reply == PumpFunDisabled
    ensures cb.UnknownCallback? ==> o.reply == UnknownCommand
  {
    match cb
    case StartMenu => Outcome(ChooseType(TypeMenu), [])
    case StartType(_) => Outcome(AskHandle, [])
    case StopPrompt => Outcome(AskStopHandle, [])
    case ListAll => ListOutcome(svc)
    case DetailsPrompt => Outcome(AskMonitorId, [])
    case ViewByHandle(h) => ViewOutcome(svc, h)
    case DeleteByHandle(h) => DeleteOutcome(svc, h)
    case PumpFunNotice => Outcome(PumpFunDisabled, [])
    case UnknownCallback(_) => Outcome(UnknownCommand, [])
  }

  // ---------------------------------------------------------------------------
  // Pending conversations

  /** The pending step of a chat: `{command, monitorType?}`. */
  datatype Conversation = StartMonitor(monitorType: MonitorKind) | StopMonitor | MonitorDetails

  /** The conversation table after an allowed user's callback. */
  function CallbackTable(table: map<ChatId, Conversation>, chat: ChatId, cb: Callback): (t: map<ChatId, Conversation>)
    ensures forall c :: c != chat ==> (c in t <==> c in table) && (c in t ==> t[c] == table[c])
    ensures cb.StartType? ==> chat in t && t[chat] == StartMonitor(cb.kind)
    ensures cb.StopPrompt? ==> chat in t && t[chat] == StopMonitor
    ensures cb.DetailsPrompt? ==> chat in t && t[chat] == MonitorDetails
    ensures !(cb.StartType? || cb.StopPrompt? || cb.DetailsPrompt?) ==> t == table
  {
    match cb
    case StartType(k) => table[chat := StartMonitor(k)]
    case StopPrompt => table[chat := StopMonitor]
    case DetailsPrompt => table[chat := MonitorDetails]
    case _ => table
  }

  /** A text message completes the chat's pending step when there is one and it is not a command. */
  predicate Consumes(table: map<ChatId, Conversation>, chat: ChatId, text: Option<string>) {
    chat in table && text.Some? && !StartsWith(text.value, "/")
  }

  /** The conversation table after an allowed user's text message. */
  function MessageTable(table: map<ChatId, Conversation>, chat: ChatId, text: Option<string>): (t: map<ChatId, Conversation>)
    ensures Consumes(table, chat, text) ==> chat !in t
    ensures !Consumes(table, chat, text) ==> t == table
    ensures forall c :: c != chat ==> (c in t <==> c in table) && (c in t ==> t[c] == table[c])
  {
    if Consumes(table, chat, text) then table - {chat} else table
  }

  /** The parameters a conversation passes to `createMonitor`: only the typed handle. */
  function HandleParams(text: string): Params {
    Params(None, Some(text), None)
  }

  /** The registry refused a creation because the monitor exists. */
  predicate IsDuplicate(e: Error) {
    Truthy(e.responseMessage) && Contains(e.responseMessage.value, "already exists")
  }

  /** The two buttons offered when a monitor for `text` already exists. */
  function DuplicateButtons(text: string): seq<string> {
    [EncodeCallback(ViewByHandle(Lower(text))), EncodeCallback(DeleteByHandle(Lower(text)))]
  }

  /** A handle typed while `start_monitor` is pending. */
  function StartMonitorInput(svc: Service, kind: MonitorKind, text: string): (o: Outcome)
    ensures o.calls == [CreateCall(kind, HandleParams(text))]
    ensures svc.create(kind, HandleParams(text)).Success? ==>
              var resp := svc.create(kind, HandleParams(text)).value;
              o.reply == if resp.data.Some? then MonitorCreated(resp.data.value.id) else CreateRejected
    ensures svc.create(kind, HandleParams(text)).Failure? ==>
              var e := svc.create(kind, HandleParams(text)).error;
              (IsDuplicate(e) ==> o.reply == AlreadyExists(text, [ViewPrefix + Lower(text), DeletePrefix + Lower(text)])) &&
              (!IsDuplicate(e) ==> o.reply == CreateFailed(e.message))
  {
    var created := MonitorManager.CreateMonitor(svc, KindName(kind), HandleParams(text));
    var reply :=
      match created.result
      case Success(resp) => if resp.data.Some? then MonitorCreated(resp.data.value.id) else CreateRejected
      case Failure(e) => if IsDuplicate(e) then AlreadyExists(text, DuplicateButtons(text)) else CreateFailed(e.message);
    Outcome(reply, created.calls)
  }

  /** A handle typed while `stop_monitor` is pending: delete the first monitor with that handle, ignoring case. */
  function StopMonitorInput(svc: Service, text: string): (o: Outcome)
    ensures 1 <= |o.calls| <= 2 && o.calls[0] == ListCall(1)
    ensures |o.calls| == 2 <==> LookupByHandle(svc, Lower(text)).Found?
    ensures |o.calls| == 2 ==> o.calls[1] == DeleteCall(LookupByHandle(svc, Lower(text)).monitor.id)
    ensures LookupByHandle(svc, Lower(text)).Found? ==>
              var m := LookupByHandle(svc, Lower(text)).monitor;
              o.reply == if svc.delete(m.id).Success? then MonitorDeleted(m.screenName.value, m.id)
                         else InputFailed(svc.delete(m.id).error.message)
    ensures LookupByHandle(svc, Lower(text)).NotFound? ==> o.reply == NoMonitorFound(text)
    ensures LookupByHandle(svc, Lower(text)).LookupFailed? ==>
              o.reply == InputFailed(LookupByHandle(svc, Lower(text)).message)
  {
    match LookupByHandle(svc, Lower(text))
    case Found(m) =>
      var d := MonitorManager.DeleteMonitor(svc, m.id);
      Outcome(if d.result.Success? then MonitorDeleted(m.screenName.value, m.id) else InputFailed(d.result.error.message),
              [ListCall(1)] + d.calls)
    case NotFound => Outcome(NoMonitorFound(text), [ListCall(1)])
    case LookupFailed(msg) => Outcome(InputFailed(msg), [ListCall(1)])
  }

  /** A monitor id typed while `monitor_details` is pending: the id is passed on exactly as typed. */
  function MonitorDetailsInput(svc: Service, text: string): (o: Outcome)
    ensures o.calls == [DetailsCall(text)]
    ensures svc.details(text).Failure? ==> o.reply == InputFailed(svc.details(text).error.message)
    ensures svc.details(text).Success? && svc.details(text).value.data.None? ==> o.reply == DetailsUnavailable
    ensures svc.details(text).Success? && svc.details(text).value.data.Some? ==>
              var m := svc.details(text).value.data.value;
              o.reply == MonitorDetailsReply(if Truthy(m.screenName) then m.screenName else None,
                                             m.monitorType, m.createdAt, m.id)
  {
    var fetched := MonitorManager.GetMonitorDetails(svc, text);
    match fetched.result
    case Failure(e) => Outcome(InputFailed(e.message), fetched.calls)
    case Success(resp) =>
      if resp.data.Some? then
        var m := resp.data.value;
        Outcome(MonitorDetailsReply(if Truthy(m.screenName) then m.screenName else None, m.monitorType, m.createdAt, m.id),
                fetched.calls)
      else Outcome(DetailsUnavailable, fetched.calls)
  }

  /** A text message that completes the pending step `conv`. */
  function InputOutcome(conv: Conversation, svc: Service, text: string): (o: Outcome)
    ensures 1 <= |o.calls| <= 2
    ensures conv.StopMonitor? <==> exists c :: c in o.calls && c.ListCall?
  {
    match conv
    case StartMonitor(k) => StartMonitorInput(svc, k, text)
    case StopMonitor => StopMonitorInput(svc, text)
    case MonitorDetails => MonitorDetailsInput(svc, text)
  }

  /** Handles spelled with different case stop the same monitor. */
  lemma StopIgnoresCase(svc: Service, t1: string, t2: string)
    requires Lower(t1) == Lower(t2)
    ensures StopMonitorInput(svc, t1).calls == StopMonitorInput(svc, t2).calls
  {
  }

  /**
   * The duplicate offer keeps the typed handle: its two buttons decode to a view
   * and a delete of the lower-cased handle, and that delete removes the monitor
   * a `stop_monitor` for the same text would remove; typing the handle
   * lower-cased stops the same monitor again.
   */
  lemma DuplicateOfferResolves(svc: Service, text: string)
    ensures DecodeCallback(DuplicateButtons(text)[0]) == ViewByHandle(Lower(text))
    ensures DecodeCallback(DuplicateButtons(text)[1]) == DeleteByHandle(Lower(text))
    ensures DeleteOutcome(svc, Lower(text)).calls == StopMonitorInput(svc, text).calls
    ensures StopMonitorInput(svc, Lower(text)).calls == StopMonitorInput(svc, text).calls
  {
    CallbackRoundTrip(ViewByHandle(Lower(text)));
    CallbackRoundTrip(DeleteByHandle(Lower(text)));
    LowerIdempotent(text);
    StopIgnoresCase(svc, Lower(text), text);
  }

  // ---------------------------------------------------------------------------
  // The bot

  class TelegramBot {
    /** `config.allowedTelegramUsers`. */
    const allowed: seq<string>
    /** `userConversations`: at most one pending step per chat. */
    var conversations: map<ChatId, Conversation>

    constructor (allowed: seq<string>)
      ensures this.allowed == allowed && conversations == map[]
    {
      this.allowed := allowed;
      conversations := map[];
    }

    /** The `/start` handler; the library calls it for every text that contains `/start`. */
    method OnStart(chatId: ChatId, username: Option<string>, text: string) returns (reply: Option<Reply>)
      ensures reply.Some? <==> Contains(text, "/start")
      ensures reply.Some? ==> reply.value == if IsUserAllowed(allowed, username) then Welcome(MainMenu) else NotAuthorized
    {
      if !Contains(text, "/start") {
        return None;
      }
      if !IsUserAllowed(allowed, username) {
        return Some(NotAuthorized);
      }
      reply := Some(Welcome(MainMenu));
    }

    /** The `callback_query` handler. */
    method OnCallback(chatId: ChatId, username: Option<string>, data: string, svc: Service)
      returns (reply: Reply, calls: seq<Call>)
      modifies this
      ensures !IsUserAllowed(allowed, username) ==>
                reply == NotAuthorized && calls == [] && conversations == old(conversations)
      ensures IsUserAllowed(allowed, username) ==>
                conversations == CallbackTable(old(conversations), chatId, DecodeCallback(data)) &&
                Outcome(reply, calls) == CallbackOutcome(DecodeCallback(data), svc)
    {
      if !IsUserAllowed(allowed, username) {
        reply, calls := NotAuthorized, [];
        return;
      }
      calls := [];
      match DecodeCallback(data)
      case StartMenu =>
        reply := ChooseType(TypeMenu);
      case StartType(k) =>
        conversations := conversations[chatId := StartMonitor(k)];
        reply := AskHandle;
      case StopPrompt =>
        reply := AskStopHandle;
        conversations := conversations[chatId := StopMonitor];
      case ListAll =>
        var listing := svc.list(1);
        calls := [ListCall(1)];
        if listing.Failure? {
          reply := RequestFailed;
        } else if listing.value.data.Some? && |listing.value.data.value| > 0 {
          var entries := BuildEntries(listing.value.data.value);
          assert entries == Entries(listing.value.data.value);
          reply := ActiveMonitors(entries);
        } else {
          reply := NoActiveMonitors;
        }
      case DetailsPrompt =>
        reply := AskMonitorId;
        conversations := conversations[chatId := MonitorDetails];
      case ViewByHandle(h) =>
        var o := ViewOutcome(svc, h);
        reply, calls := o.reply, o.calls;
      case DeleteByHandle(h) =>
        var o := DeleteOutcome(svc, h);
        reply, calls := o.reply, o.calls;
      case PumpFunNotice =>
        reply := PumpFunDisabled;
      case UnknownCallback(_) =>
        reply := UnknownCommand;
    }

    /** The `message` handler: a text message may complete the chat's pending step. */
    method OnMessage(chatId: ChatId, username: Option<string>, text: Option<string>, svc: Service)
      returns (replies: seq<Reply>, calls: seq<Call>)
      modifies this
      ensures !IsUserAllowed(allowed, username) ==>
                replies == [NotAuthorized] && calls == [] && conversations == old(conversations)
      ensures IsUserAllowed(allowed, username) ==>
                conversations == MessageTable(old(conversations), chatId, text)
      ensures IsUserAllowed(allowed, username) && !Consumes(old(conversations), chatId, text) ==>
                replies == [] && calls == []
      ensures IsUserAllowed(allowed, username) && Consumes(old(conversations), chatId, text) ==>
                var o := InputOutcome(old(conversations)[chatId], svc, text.value);
                replies == [o.reply] && calls == o.calls
    {
      if !IsUserAllowed(allowed, username) {
        replies, calls := [NotAuthorized], [];
        return;
      }
      replies, calls := [], [];
      if chatId in conversations && text.Some? && !StartsWith(text.value, "/") {
        var o := InputOutcome(conversations[chatId], svc, text.value);
        replies, calls := [o.reply], o.calls;
        conversations := conversations - {chatId};
      }
    }
  }
}
