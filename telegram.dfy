/** The Telegram client: its timeline state (groups, dedup set, selected
    chat), the operations that change it, and the login form's checks.
    Network calls are parameters: a dialog list is the sequence the dialog
    iterator yields (an `Err` item ends it with that error), and a history
    fetch is a function from the request the client issues to what the
    server returns. */
module Telegram {
  import opened Ints
  import opened Results
  import opened Decimal
  import opened Clients
  import opened TelegramTimeline
  import MessageWidget

  /** What an operation ends in: success, a returned error, or a panic that
      unwound the task (an incoming message without a sender). */
  datatype Outcome = Done | Failed(error: string) | Aborted

  /** A dialog's chat as the library lists it. */
  datatype ChatInfo = ChatInfo(id: I64, name: string)

  /** A history fetch as issued: which chat, the `offset_id` if one is set,
      and the `limit`. */
  datatype HistoryRequest = HistoryRequest(chat: ChatInfo, offsetId: Option<I32>, limit: nat)

  /** An update from the server; only new messages are processed. */
  datatype Update = NewMessage(message: GrammersMessage) | OtherUpdate

  const ClientName: string := "telegram"
  const InitialHistoryLimit: nat := 20
  const MoreHistoryLimit: nat := 20
  const SyncHistoryLimit: nat := 10

  /** What `find_chat` returns for a dialog list: the first chat whose printed
      id equals `chatId`, the error of a failing dialog read met before it, or
      "Chat not found". */
  function LookupChat(dialogs: seq<Result<ChatInfo>>, chatId: string): (r: Result<ChatInfo>)
    ensures r.Ok? ==> exists k :: 0 <= k < |dialogs| && dialogs[k] == Ok(r.value)
    ensures r.Ok? ==> DecimalString(r.value.id) == chatId
    ensures (forall k :: 0 <= k < |dialogs| ==> dialogs[k].Ok? && DecimalString(dialogs[k].value.id) != chatId)
      ==> r == Err("Chat not found: " + chatId)
    ensures r.Err? && r.error != "Chat not found: " + chatId ==> exists k :: 0 <= k < |dialogs| && dialogs[k] == Err(r.error)
  {
    if dialogs == [] then Err("Chat not found: " + chatId)
    else match dialogs[0]
      case Err(e) => Err(e)
      case Ok(c) =>
        if DecimalString(c.id) == chatId then Ok(c)
        else LookupChat(dialogs[1..], chatId)
  }

  /** A dialog read in full before any failing read and carrying the id
      is the chat `find_chat` returns. */
  lemma {:induction false} LookupChatFindsFirstMatch(dialogs: seq<Result<ChatInfo>>, chatId: string, k: nat)
    requires k < |dialogs| && dialogs[k].Ok? && DecimalString(dialogs[k].value.id) == chatId
    requires forall j :: 0 <= j < k ==> dialogs[j].Ok? && DecimalString(dialogs[j].value.id) != chatId
    ensures LookupChat(dialogs, chatId) == Ok(dialogs[k].value)
  {
    if k > 0 {
      LookupChatFindsFirstMatch(dialogs[1..], chatId, k - 1);
    }
  }

  /** A failing dialog read met before any match ends the search with that
      read's error. */
  lemma {:induction false} LookupChatStopsAtReadError(dialogs: seq<Result<ChatInfo>>, chatId: string, k: nat)
    requires k < |dialogs| && dialogs[k].Err?
    requires forall j :: 0 <= j < k ==> dialogs[j].Ok? && DecimalString(dialogs[j].value.id) != chatId
    ensures LookupChat(dialogs, chatId) == Err(dialogs[k].error)
  {
    if k > 0 {
      LookupChatStopsAtReadError(dialogs[1..], chatId, k - 1);
    }
  }

  /** `find_chat`: walk the dialogs until the chat with that id is found. */
  method FindChat(dialogs: seq<Result<ChatInfo>>, chatId: string) returns (r: Result<ChatInfo>)
    ensures r == LookupChat(dialogs, chatId)
  {
    var i := 0;
    while i < |dialogs|
      invariant 0 <= i <= |dialogs|
      invariant LookupChat(dialogs[i..], chatId) == LookupChat(dialogs, chatId)
    {
      assert dialogs[i..][1..] == dialogs[i + 1..];
      match dialogs[i]
      case Err(e) =>
        return Err(e);
      case Ok(chat) =>
        if DecimalString(chat.id) == chatId {
          return Ok(chat);
        }
      i := i + 1;
    }
    return Err("Chat not found: " + chatId);
  }

  /** `chats`: one chat summary per dialog, id printed in decimal, name set,
      no avatar; a failing dialog read fails the whole list. */
  method ListChats(dialogs: seq<Result<ChatInfo>>) returns (r: Result<seq<Chat>>)
    ensures r.Ok? <==> forall k :: 0 <= k < |dialogs| ==> dialogs[k].Ok?
    ensures r.Ok? ==> |r.value| == |dialogs|
    ensures r.Ok? ==> forall k :: 0 <= k < |dialogs| ==>
      r.value[k] == Chat(DecimalString(dialogs[k].value.id), Some(dialogs[k].value.name), None)
    ensures r.Err? ==> exists k :: (0 <= k < |dialogs| && dialogs[k] == Err(r.error)
      && forall j :: 0 <= j < k ==> dialogs[j].Ok?)
  {
    var chats: seq<Chat> := [];
    var i := 0;
    while i < |dialogs|
      invariant 0 <= i <= |dialogs|
      invariant forall k :: 0 <= k < i ==> dialogs[k].Ok?
      invariant |chats| == i
      invariant forall k :: 0 <= k < i ==>
        chats[k] == Chat(DecimalString(dialogs[k].value.id), Some(dialogs[k].value.name), None)
    {
      match dialogs[i]
      case Err(e) =>
        return Err(e);
      case Ok(chat) =>
        chats := chats + [Chat(DecimalString(chat.id), Some(chat.name), None)];
      i := i + 1;
    }
    return Ok(chats);
  }

  /** The delete request `delete_event` issues, or why it issues none:
      nothing when no chat is selected, the `find_chat` error, or the error of
      parsing the id as an `i32`. */
  function DeleteTarget(selected: Option<string>, dialogs: seq<Result<ChatInfo>>, messageId: string)
    : (r: Result<Option<(ChatInfo, I32)>>)
    ensures selected.None? ==> r == Ok(None)
    ensures r.Ok? && r.value.Some? ==>
      && selected.Some?
      && LookupChat(dialogs, selected.value) == Ok(r.value.value.0)
      && ParseI32(messageId) == Ok(r.value.value.1)
    ensures selected.Some? && LookupChat(dialogs, selected.value).Err? ==> r == Err(LookupChat(dialogs, selected.value).error)
    ensures selected.Some? && LookupChat(dialogs, selected.value).Ok? && ParseI32(messageId).Err?
      ==> r == Err(ParseI32(messageId).error)
    ensures selected.Some? && LookupChat(dialogs, selected.value).Ok? && ParseI32(messageId).Ok?
      ==> r == Ok(Some((LookupChat(dialogs, selected.value).value, ParseI32(messageId).value)))
  {
    match selected
    case None => Ok(None)
    case Some(chatId) =>
      match LookupChat(dialogs, chatId)
      case Err(e) => Err(e)
      case Ok(chat) =>
        match ParseI32(messageId)
        case Err(e) => Err(e)
        case Ok(n) => Ok(Some((chat, n)))
  }

  /** The checks of the login form before it calls the library: `API_ID` must
      be set and parse as an `i32`, then `API_HASH` must be set. An
      environment variable that is unset or not Unicode reads as `None`. */
  function ApiCredentials(apiIdVar: Option<string>, apiHashVar: Option<string>): (r: Result<(I32, string)>)
    ensures r.Ok? <==> apiIdVar.Some? && ParseI32(apiIdVar.value).Ok? && apiHashVar.Some?
    ensures r.Ok? ==> r.value == (ParseI32(apiIdVar.value).value, apiHashVar.value)
    ensures apiIdVar.None? ==> r == Err("API_ID environment variable not set")
    ensures apiIdVar.Some? && ParseI32(apiIdVar.value).Err? ==> r == Err("API_ID environment variable must be a valid number")
    ensures apiIdVar.Some? && ParseI32(apiIdVar.value).Ok? && apiHashVar.None? ==> r == Err("API_HASH environment variable not set")
  {
    match apiIdVar
    case None => Err("API_ID environment variable not set")
    case Some(idText) =>
      match ParseI32(idText)
      case Err(_) => Err("API_ID environment variable must be a valid number")
      case Ok(id) =>
        match apiHashVar
        case None => Err("API_HASH environment variable not set")
        case Some(hash) => Ok((id, hash))
  }

  /** An `API_ID` holding the printed form of any `i32` gets past the check. */
  lemma PrintedApiIdAccepted(id: I32, hash: string)
    ensures ApiCredentials(Some(DecimalString(id)), Some(hash)) == Ok((id, hash))
  {
    ParseI32RoundTrip(id);
  }

  /** The Telegram login form: the phone number typed in and the error shown
      under the button. */
  class Login {
    var phone: string
    var errorMessage: Option<string>

    /** `Login::default()`. */
    constructor ()
      ensures phone == [] && errorMessage == None
    {
      phone := [];
      errorMessage := None;
    }

    /** What `show` does after the frame is drawn. Nothing happens unless the
        button was clicked and the frame has storage. A failed environment
        check shows its message; otherwise the library login runs with the
        phone, the id and the hash: on success the error is cleared and the
        new client's user id is returned to be added to the client list, on
        failure "Login failed: " and the error are shown. */
    method Show(tryLogin: bool, storageAvailable: bool, apiIdVar: Option<string>, apiHashVar: Option<string>,
                signIn: (string, I32, string) -> Result<string>)
      returns (added: Option<string>)
      modifies this`errorMessage
      ensures !tryLogin || !storageAvailable ==> added == None && errorMessage == old(errorMessage)
      ensures tryLogin && storageAvailable && ApiCredentials(apiIdVar, apiHashVar).Err? ==>
        added == None && errorMessage == Some(ApiCredentials(apiIdVar, apiHashVar).error)
      ensures tryLogin && storageAvailable && ApiCredentials(apiIdVar, apiHashVar).Ok? ==>
        var (id, hash) := ApiCredentials(apiIdVar, apiHashVar).value;
        match signIn(phone, id, hash)
        case Ok(user) => added == Some(user) && errorMessage == None
        case Err(e) => added == None && errorMessage == Some("Login failed: " + e)
    {
      added := None;
      if tryLogin && storageAvailable {
        var credentials := ApiCredentials(apiIdVar, apiHashVar);
        if credentials.Err? {
          errorMessage := Some(credentials.error);
          return;
        }
        var (id, hash) := credentials.value;
        var signedIn := signIn(phone, id, hash);
        match signedIn
        case Ok(user) =>
          errorMessage := None;
          added := Some(user);
        case Err(e) =>
          errorMessage := Some("Login failed: " + e);
      }
    }
  }

  class TelegramClient {
    var eventGroups: seq<EventGroup>
    var selectedChat: Option<string>
    var processedEvents: set<string>
    const userId: string

    function State(): Timeline
      reads this
    {
      Timeline(eventGroups, processedEvents)
    }

    ghost predicate Valid()
      reads this
    {
      WellFormed(State())
    }

    /** A freshly logged-in or restored client: no groups, no selection, no ids seen. */
    constructor (userId: string)
      ensures Valid()
      ensures eventGroups == [] && selectedChat == None && processedEvents == {}
      ensures this.userId == userId
    {
      eventGroups := [];
      selectedChat := None;
      processedEvents := {};
      this.userId := userId;
    }

    function SelfId(): string
      reads this
    {
      userId
    }

    /** The `iter_mut` loop of `process_message`: push `event` onto the first
        group passing `isMatch` and stop, or else push `newGroup`. */
    method PushToFirstMatching(isMatch: EventGroup -> bool, event: Event, newGroup: EventGroup)
      modifies this`eventGroups
      ensures FirstMatching(old(eventGroups), isMatch).Some? ==>
        eventGroups == AppendAt(old(eventGroups), FirstMatching(old(eventGroups), isMatch).value, event)
      ensures FirstMatching(old(eventGroups), isMatch).None? ==> eventGroups == old(eventGroups) + [newGroup]
    {
      var found := false;
      var i := 0;
      while i < |eventGroups|
        invariant 0 <= i <= |eventGroups|
        invariant eventGroups == old(eventGroups)
        invariant forall j :: 0 <= j < i ==> !isMatch(eventGroups[j])
      {
        if isMatch(eventGroups[i]) {
          eventGroups := AppendAt(eventGroups, i, event);
          found := true;
          break;
        }
        i := i + 1;
      }
      if !found {
        eventGroups := eventGroups + [newGroup];
      }
    }

    /** `process_message`; `aborted` means the call panicked on a missing sender. */
    method ProcessMessage(m: GrammersMessage) returns (aborted: bool)
      requires Valid()
      modifies this`eventGroups, this`processedEvents
      ensures Valid()
      ensures Folded(State(), aborted) == Step(old(State()), userId, m)
    {
      StepKeepsWellFormed(State(), userId, m);
      var eventId := EventId(m);
      if eventId in processedEvents {
        return false;
      }
      processedEvents := processedEvents + {eventId};
      if !m.outgoing {
        if m.sender.None? {
          return true;
        }
        var senderId := SenderId(m.sender.value);
        var event := ToEvent(m);
        PushToFirstMatching(FromSender(senderId), event, EventGroup(senderId, m.sender.value.name, None, [event], false));
      } else {
        var event := ToEvent(m);
        PushToFirstMatching(FromSelf(), event, EventGroup(userId, SelfDisplayName, None, [event], true));
      }
      return false;
    }

    /** `process_update`: a new message is processed, any other update ignored. */
    method ProcessUpdate(u: Update) returns (aborted: bool)
      requires Valid()
      modifies this`eventGroups, this`processedEvents
      ensures Valid()
      ensures u.NewMessage? ==> Folded(State(), aborted) == Step(old(State()), userId, u.message)
      ensures u.OtherUpdate? ==> State() == old(State()) && !aborted
    {
      match u
      case NewMessage(m) =>
        aborted := ProcessMessage(m);
      case OtherUpdate =>
        aborted := false;
    }

    /** The loop over fetched messages shared by the history operations. */
    method ProcessMessages(ms: seq<GrammersMessage>) returns (aborted: bool)
      requires Valid()
      modifies this`eventGroups, this`processedEvents
      ensures Valid()
      ensures Folded(State(), aborted) == Fold(old(State()), userId, ms)
    {
      var i := 0;
      while i < |ms|
        invariant 0 <= i <= |ms|
        invariant Valid()
        invariant Fold(State(), userId, ms[i..]) == Fold(old(State()), userId, ms)
      {
        assert ms[i..][0] == ms[i] && ms[i..][1..] == ms[i + 1..];
        aborted := ProcessMessage(ms[i]);
        if aborted {
          return;
        }
        i := i + 1;
      }
      return false;
    }

    /** The loop of `sync`: each fetched message goes through `process_update`
        as a new-message update, stopping at the first panic. */
    method ProcessUpdates(ms: seq<GrammersMessage>) returns (aborted: bool)
      requires Valid()
      modifies this`eventGroups, this`processedEvents
      ensures Valid()
      ensures Folded(State(), aborted) == Fold(old(State()), userId, ms)
    {
      var i := 0;
      while i < |ms|
        invariant 0 <= i <= |ms|
        invariant Valid()
        invariant Fold(State(), userId, ms[i..]) == Fold(old(State()), userId, ms)
      {
        assert ms[i..][0] == ms[i] && ms[i..][1..] == ms[i + 1..];
        aborted := ProcessUpdate(NewMessage(ms[i]));
        if aborted {
          return;
        }
        i := i + 1;
      }
      return false;
    }

    /** `load_chat_history`: fetch, then fold; a failed fetch changes nothing. */
    method LoadChatHistory(chat: ChatInfo, limit: nat, fetch: HistoryRequest -> Result<seq<GrammersMessage>>)
      returns (r: Outcome)
      requires Valid()
      modifies this`eventGroups, this`processedEvents
      ensures Valid()
      ensures fetch(HistoryRequest(chat, None, limit)).Err? ==>
        State() == old(State()) && r == Failed(fetch(HistoryRequest(chat, None, limit)).error)
      ensures fetch(HistoryRequest(chat, None, limit)).Ok? ==>
        var f := Fold(old(State()), userId, fetch(HistoryRequest(chat, None, limit)).value);
        State() == f.timeline && r == (if f.aborted then Aborted else Done)
    {
      var fetched := fetch(HistoryRequest(chat, None, limit));
      if fetched.Err? {
        return Failed(fetched.error);
      }
      var aborted := ProcessMessages(fetched.value);
      r := if aborted then Aborted else Done;
    }

    /** `select_chat`. If the chat is not found nothing changes. Otherwise the
        groups and the dedup set are emptied and the selection set before the
        first 20 messages are loaded; a failed load keeps the new selection. */
    method SelectChat(chatId: string, dialogs: seq<Result<ChatInfo>>,
                      fetch: HistoryRequest -> Result<seq<GrammersMessage>>)
      returns (r: Outcome)
      requires Valid()
      modifies this`eventGroups, this`processedEvents, this`selectedChat
      ensures Valid()
      ensures LookupChat(dialogs, chatId).Err? ==>
        && r == Failed(LookupChat(dialogs, chatId).error)
        && State() == old(State()) && selectedChat == old(selectedChat)
      ensures LookupChat(dialogs, chatId).Ok? ==>
        var fetched := fetch(HistoryRequest(LookupChat(dialogs, chatId).value, None, InitialHistoryLimit));
        && selectedChat == Some(chatId)
        && (fetched.Err? ==> State() == EmptyTimeline && r == Failed(fetched.error))
        && (fetched.Ok? ==>
              var f := Fold(EmptyTimeline, userId, fetched.value);
              State() == f.timeline && r == (if f.aborted then Aborted else Done))
    {
      var found := FindChat(dialogs, chatId);
      if found.Err? {
        return Failed(found.error);
      }
      eventGroups := [];
      processedEvents := {};
      selectedChat := Some(chatId);
      r := LoadChatHistory(found.value, InitialHistoryLimit, fetch);
    }

    /** The `offset_id` `load_more_events` passes: the number of events held,
        cast with `as i32`. */
    function MoreHistoryRequest(chat: ChatInfo): (req: HistoryRequest)
      reads this
      ensures req.offsetId.Some? && req.limit == MoreHistoryLimit
      ensures TotalEvents(eventGroups) < TwoTo31 ==> req.offsetId.value == TotalEvents(eventGroups)
    {
      HistoryRequest(chat, Some(I32FromUsize(TotalEvents(eventGroups))), MoreHistoryLimit)
    }

    /** `load_more_events`: nothing without a selection; otherwise find the
        chat, fetch 20 messages from the offset, and fold them in. */
    method LoadMoreEvents(dialogs: seq<Result<ChatInfo>>, fetch: HistoryRequest -> Result<seq<GrammersMessage>>)
      returns (r: Outcome)
      requires Valid()
      modifies this`eventGroups, this`processedEvents
      ensures Valid()
      ensures selectedChat.None? ==> r == Done && State() == old(State())
      ensures selectedChat.Some? && LookupChat(dialogs, selectedChat.value).Err? ==>
        r == Failed(LookupChat(dialogs, selectedChat.value).error) && State() == old(State())
      ensures selectedChat.Some? && LookupChat(dialogs, selectedChat.value).Ok? ==>
        var fetched := fetch(old(MoreHistoryRequest(LookupChat(dialogs, selectedChat.value).value)));
        && (fetched.Err? ==> r == Failed(fetched.error) && State() == old(State()))
        && (fetched.Ok? ==>
              var f := Fold(old(State()), userId, fetched.value);
              State() == f.timeline && r == (if f.aborted then Aborted else Done))
    {
      if selectedChat.None? {
        return Done;
      }
      var found := FindChat(dialogs, selectedChat.value);
      if found.Err? {
        return Failed(found.error);
      }
      var fetched := fetch(MoreHistoryRequest(found.value));
      if fetched.Err? {
        return Failed(fetched.error);
      }
      var aborted := ProcessMessages(fetched.value);
      r := if aborted then Aborted else Done;
    }

    /** `sync`: nothing without a selection or when the selected chat is not
        found (that error is dropped); otherwise the latest 10 messages go
        through `process_update`. The chat is looked up before the client is
        locked; this is the corrected order SyncLockOps describes, and
        SyncLockOpsAsWritten is the order the source uses. */
    method Sync(dialogs: seq<Result<ChatInfo>>, fetch: HistoryRequest -> Result<seq<GrammersMessage>>)
      returns (r: Outcome)
      requires Valid()
      modifies this`eventGroups, this`processedEvents
      ensures Valid()
      ensures selectedChat.None? || LookupChat(dialogs, selectedChat.value).Err? ==>
        r == Done && State() == old(State())
      ensures selectedChat.Some? && LookupChat(dialogs, selectedChat.value).Ok? ==>
        var fetched := fetch(HistoryRequest(LookupChat(dialogs, selectedChat.value).value, None, SyncHistoryLimit));
        && (fetched.Err? ==> r == Failed(fetched.error) && State() == old(State()))
        && (fetched.Ok? ==>
              var f := Fold(old(State()), userId, fetched.value);
              State() == f.timeline && r == (if f.aborted then Aborted else Done))
    {
      var messages: seq<GrammersMessage> := [];
      if selectedChat.Some? {
        var found := FindChat(dialogs, selectedChat.value);
        if found.Ok? {
          var fetched := fetch(HistoryRequest(found.value, None, SyncHistoryLimit));
          if fetched.Err? {
            return Failed(fetched.error);
          }
          messages := fetched.value;
        }
      }
      var aborted := ProcessUpdates(messages);
      r := if aborted then Aborted else Done;
    }

    /** `delete_event`: with a chat selected, find it, parse the id as an
        `i32` and ask the server to delete that message. */
    method DeleteEvent(messageId: string, dialogs: seq<Result<ChatInfo>>,
                       deleteMessages: (ChatInfo, I32) -> Result<()>)
      returns (r: Result<()>)
      ensures var target := DeleteTarget(selectedChat, dialogs, messageId);
        && (target.Err? ==> r == Err(target.error))
        && (target.Ok? && target.value.None? ==> r == Ok(()))
        && (target.Ok? && target.value.Some? ==> r == deleteMessages(target.value.value.0, target.value.value.1))
    {
      if selectedChat.Some? {
        var found := FindChat(dialogs, selectedChat.value);
        if found.Err? {
          return Err(found.error);
        }
        var parsed := ParseI32(messageId);
        if parsed.Err? {
          return Err(parsed.error);
        }
        return deleteMessages(found.value, parsed.value);
      }
      return Ok(());
    }
  }

  /** Every event shown in a well-formed timeline can be passed to
      `delete_event`: its id gets past the `i32` parse. */
  lemma ShownEventsAreDeletable(t: Timeline, i: nat, k: nat, dialogs: seq<Result<ChatInfo>>, chatId: string)
    requires WellFormed(t)
    requires i < |t.groups| && k < |t.groups[i].events|
    requires LookupChat(dialogs, chatId).Ok?
    ensures DeleteTarget(Some(chatId), dialogs, t.groups[i].events[k].id).Ok?
    ensures DeleteTarget(Some(chatId), dialogs, t.groups[i].events[k].id).value.Some?
  {
  }

  /** Switching chats empties the dedup set, so a message id already seen in
      the previous chat is placed again when the new chat's history has it. */
  lemma ReselectReprocesses(selfId: string, m: GrammersMessage)
    requires Placeable(m)
    ensures var r := Step(EmptyTimeline, selfId, m);
      !r.aborted && TotalEvents(r.timeline.groups) == 1 && EventId(m) in IdSet(r.timeline.groups)
  {
    StepNewMessage(EmptyTimeline, selfId, m);
  }

  /** The time shown under a fetched message is the UTC hour and minute of
      its date: the `as u64` cast on the way into the event and the `as i64`
      cast on the way out cancel, for dates before 1970 too. */
  lemma MessageTimeShown(m: GrammersMessage)
    requires MessageWidget.MinTimestamp <= m.date <= MessageWidget.MaxTimestamp
    ensures var shown := MessageWidget.FormatTime(ToEvent(m).timestamp);
      && shown.Some?
      && var hour := DigitsValue(shown.value[..2]);
         var minute := DigitsValue(shown.value[3..]);
         hour * 3600 + minute * 60 <= m.date % MessageWidget.SecondsPerDay < hour * 3600 + minute * 60 + 60
  {
    MessageWidget.FormatTimeReadsBack(ToEvent(m).timestamp);
  }

  // ---------------------------------------------------------------------
  // The order in which `sync` takes the client mutex.

  /** Taking or releasing the (non-reentrant) client mutex. */
  datatype LockOp = Lock | Unlock

  /** Runs lock operations from a given holding state; `None` when a task
      would wait for a mutex it already holds, that is, wait forever. */
  function RunLocks(held: bool, ops: seq<LockOp>): (r: Option<bool>)
    ensures r.None? ==> exists i :: 0 <= i < |ops| && ops[i] == Lock
    ensures r.Some? && ops != [] ==> r.value == (ops[|ops| - 1] == Lock)
    decreases |ops|
  {
    if ops == [] then Some(held)
    else match ops[0]
      case Lock => if held then None else RunLocks(true, ops[1..])
      case Unlock => RunLocks(false, ops[1..])
  }

  /** The lock operations of `sync` as written: the client mutex is taken at
      the start and held until the messages are fetched, and `find_chat`
      takes the same mutex while it is held. */
  function SyncLockOpsAsWritten(chatSelected: bool): (ops: seq<LockOp>)
    ensures |ops| >= 2 && ops[0] == Lock && ops[|ops| - 1] == Unlock
    ensures chatSelected ==> ops[1] == Lock
  {
    if chatSelected then [Lock, Lock, Unlock, Unlock] else [Lock, Unlock]
  }

  /** With a chat selected, `sync` as written waits on itself forever. */
  lemma SyncAsWrittenDeadlocks()
    ensures RunLocks(false, SyncLockOpsAsWritten(true)) == None
    ensures RunLocks(false, SyncLockOpsAsWritten(false)) == Some(false)
  {
    assert SyncLockOpsAsWritten(true)[1..][0] == Lock;
    assert SyncLockOpsAsWritten(false)[1..] == [Unlock];
  }

  /** The order Sync follows: `find_chat` takes and releases the mutex before
      `sync` takes it for the fetch, as `load_more_events` already does. */
  function SyncLockOps(chatSelected: bool): (ops: seq<LockOp>)
    ensures forall i :: 0 <= i < |ops| ==> ops[i] == (if i % 2 == 0 then Lock else Unlock)
  {
    if chatSelected then [Lock, Unlock, Lock, Unlock] else [Lock, Unlock]
  }

  /** Sync's order never waits on a mutex it holds and ends with it released. */
  lemma SyncLockOpsComplete(chatSelected: bool)
    ensures RunLocks(false, SyncLockOps(chatSelected)) == Some(false)
  {
    var release: seq<LockOp> := [Unlock];
    assert release[1..] == [];
    assert RunLocks(true, release) == Some(false);
    var pair: seq<LockOp> := [Lock, Unlock];
    assert pair[1..] == release;
    if chatSelected {
      var tail: seq<LockOp> := [Unlock, Lock, Unlock];
      assert tail[1..] == pair;
      assert SyncLockOps(true)[1..] == tail;
    }
  }
}
