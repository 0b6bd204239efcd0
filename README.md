# echat core, modelled in Dafny

echat is a small egui desktop chat client with two back ends: Telegram
(through the grammers library) and Matrix (through matrix_sdk). This project
models and verifies the parts of it that hold logic of their own, as opposed
to drawing or SDK glue:

- **The Telegram timeline** (`TelegramClient`). Fetched messages are folded
  into event groups. A set of processed message ids keeps the fold
  idempotent. An incoming message joins the first group, anywhere in the
  list, whose user id is the sender's. An outgoing message joins the single
  "You" group. Selecting a chat resets the state. `load_more_events` passes
  the number of events held as the history offset. The model also covers
  the guards of `sync` and `delete_event` and the environment checks of the
  Telegram login form.
- **The application's client registry** (`EChat`). Clients are persisted
  under keys of the form `"<client name>-<self id>"`. At start-up stored keys
  are routed to the loader named by their prefix. The model covers the rules
  for the active client index, the background sync started at start-up, the
  bookkeeping after a login, and the bounds check before the chat screen is
  drawn.
- **The message widget's layout decisions.** These are: bubble corner
  rounding and its mirroring, the first/last flags of each row, which row
  carries the sender's name or avatar, which side a group sits on, and the
  `HH:MM` time label.
- **The Matrix client's sync token.** The token is sent as `since` to
  `/sync` and replaced by the returned `next_batch`. It is persisted in the
  session record under "matrix_session". A login creates the record and
  `load_from_storage` reads it back.

Modules:

| module | file | contents |
|---|---|---|
| `Ints` | ints.dfy | `i32`/`i64`/`u64` ranges and the `as` casts the source uses |
| `Results` | results.dfy | `Option` and `Result` |
| `Decimal` | decimal.dfy | `to_string` of integers and `str::parse::<i32>` with its error messages |
| `Clients` | clients.dfy | `Event`, `EventGroup`, `Chat`, `LoginOption` |
| `TelegramTimeline` | telegram_timeline.dfy | the fold of messages into groups, as functions, with its invariants |
| `Telegram` | telegram.dfy | the `TelegramClient` and `Login` classes, proved against `TelegramTimeline` |
| `MessageWidget` | message.dfy | layout of one event group |
| `Matrix` | matrix.dfy | the `MatrixClient` class and the session store |
| `App` | app.dfy | the `EChat` class |

Collaborators the model cannot see are passed in as function parameters. For
Telegram these are a history fetch, the dialog list, message deletion and
sign-in. For Matrix they are client building and login, session restore, and
`sync_once`. The application's client loaders, the login forms and each
client's own `save` are passed the same way. The random generator is a
stream of sampled indices.

Where the code and its documented design disagree, the model follows the
code:

- An incoming message joins the *first* group with its sender's id, even when
  other senders' groups come after it. Messages from A, A, B, A therefore
  make two groups, not three (`InterleavedSenderRejoinsFirstGroup`).
- `EChat` is deserialized with `#[serde(default)]`, and its `logins` field is
  skipped, so a restored state already holds the two default login forms.
  When no stored client loads, `new` appends two more, which gives four
  forms (`NoClientFourForms`).
- `active_client_index` is persisted. After a run that set it, it is restored
  as `Some(0)`. `new` then never sees `None`, so no background sync is
  spawned at start-up (`LoadKeysSyncTasks`).
- `src/app.rs:69` calls `MatrixClient::load_from_storage(storage, key)` and
  matches on `Ok`. `src/clients/matrix.rs:112` declares
  `load_from_storage(storage)` returning a `LoginOption`. Each file is
  modelled on its own terms. In `App`, the Matrix loader is a parameter that
  takes the key and returns a `Result`. In `Matrix`, `LoadFromStorage`
  returns a `LoginOption`.

## Model

| member | source | states |
|---|---|---|
| `Ints.U64FromI64` | src/clients/telegram.rs:346 | `as u64` keeps non-negative dates and adds 2^64 to negative ones |
| `Ints.I64FromU64` | src/message.rs:235 | `as i64` keeps values below 2^63 and maps the rest to negatives |
| `Ints.I32FromUsize` | src/clients/telegram.rs:586 | `as i32` on a count keeps it below 2^31 and otherwise agrees with it modulo 2^32 |
| `Ints.I64RoundTrip` | src/clients/telegram.rs:346 | a date cast to `u64` and back to `i64` is unchanged |
| `Decimal.NatDigits` | src/clients/telegram.rs:326 | printed digits are non-empty, all digits, and have no leading zero |
| `Decimal.ParseInteger` | src/clients/telegram.rs:613 | the syntax `parse` accepts: a value exists only for a non-empty string, and a string without `-` gives a non-negative value |
| `Decimal.ScanDigits` | src/clients/telegram.rs:613 | the digit loop fails only with the invalid-digit, too-large or too-small message |
| `Decimal.ParseI32` | src/clients/telegram.rs:613 | `parse::<i32>` succeeds exactly on integer syntax within the `i32` range, with that value. Empty input, a lone sign, overflow and underflow each give the library's message |
| `Decimal.ScanAgreesWithValue` | src/clients/telegram.rs:613 | the left-to-right scan succeeds exactly when the digits' value fits, and it returns that value |
| `Decimal.NatDigitsValue` | src/clients/telegram.rs:326 | reading back the printed digits of `n` gives `n` |
| `Decimal.DecimalString` | src/clients/telegram.rs:326 | `to_string` of a signed integer: non-empty, starting with `-` exactly for a negative number, and all digits otherwise |
| `Decimal.ParseDecimalString` | src/clients/telegram.rs:326 | the printed form of any integer, as `to_string` writes it here, parses back to it (the read-back is the `parse` at src/clients/telegram.rs:613) |
| `Decimal.ParseI32RoundTrip` | src/clients/telegram.rs:613 | the printed form of any `i32` parses as that `i32` |
| `Decimal.DecimalStringInjective` | src/clients/telegram.rs:457 | distinct ids print differently, so comparing printed chat ids compares ids |
| `Clients.DefaultLoginOption` | src/clients/mod.rs:8-14 | the default login option asks for credentials, with both fields empty |
| `TelegramTimeline.ToEvent` | src/clients/telegram.rs:344-348 | the event's id is the printed message id, its text is the message text, and its timestamp casts back to the message date |
| `TelegramTimeline.EventId` | src/clients/telegram.rs:326 | the event id is the message id printed in decimal |
| `TelegramTimeline.EventIdParsesBack` | src/clients/telegram.rs:326 | the stored event id parses back as the message's `i32` id |
| `TelegramTimeline.SenderId` | src/clients/telegram.rs:337 | the group's user id is the sender id printed in decimal |
| `TelegramTimeline.SenderIdParsesBack` | src/clients/telegram.rs:337 | the stored user id reads back as the sender's id |
| `TelegramTimeline.TotalEvents` | src/clients/telegram.rs:572-577 | the number of events summed over all groups |
| `TelegramTimeline.TotalEventsBounds` | src/clients/telegram.rs:572-577 | the sum is at least each group's size, and is zero exactly when every group is empty |
| `TelegramTimeline.FirstMatching` | src/clients/telegram.rs:353-360 | the `iter_mut`/`found`/`break` search finds the least index whose group matches, or reports that none does |
| `TelegramTimeline.Place` | src/clients/telegram.rs:350-407 | an incoming message is appended to the first group with the sender's id, or a new non-self group is pushed. An outgoing message joins the first self group, or a "You" group with the self id and no avatar is pushed |
| `TelegramTimeline.Step` | src/clients/telegram.rs:324-410 | a seen id changes nothing. A new id is recorded in every case, and a message without a sender aborts with the groups unchanged |
| `TelegramTimeline.Fold` | src/clients/telegram.rs:443-445 | the per-message loop of the history loads (also src/clients/telegram.rs:495-497 and 598-600): each message in fetch order goes through `Step`, and the first panic ends the batch |
| `TelegramTimeline.FoldAbortsOnlyOnUnplaceable` | src/clients/telegram.rs:443-445 | a batch only adds to the dedup set, and it aborts only at a message that was new and had no sender to place it under |
| `TelegramTimeline.PlaceAddsOneEvent` | src/clients/telegram.rs:350-407 | placing keeps every group in place with its header, adds exactly one event, and adds exactly its id |
| `TelegramTimeline.PlaceKeepsShape` | src/clients/telegram.rs:353-406 | no two non-self groups share a user id, there is at most one self group, and no group is empty |
| `TelegramTimeline.PlaceKeepsMessageIds` | src/clients/telegram.rs:326 | every stored event id remains the printed form of an `i32`: it parses as an `i32` and prints back to the same string |
| `TelegramTimeline.PlaceEventOrigin` | src/clients/telegram.rs:350-407 | every event after placing was there before or is the new one |
| `TelegramTimeline.StepKeepsWellFormed` | src/clients/telegram.rs:324-410 | processing one message keeps the timeline invariants, and stored ids stay in the dedup set without duplicates |
| `TelegramTimeline.StepNewMessage` | src/clients/telegram.rs:332-407 | a new id grows the dedup set by one and the event total by one, and removes or reorders nothing |
| `TelegramTimeline.ExtendsTransitive` | src/clients/telegram.rs:350-407 | "only appends" composes over several messages |
| `TelegramTimeline.FoldSkipsProcessed` | src/clients/telegram.rs:328-331 | a batch of already-seen ids changes neither the set nor the groups |
| `TelegramTimeline.FoldRecordsIds` | src/clients/telegram.rs:332 | a completed batch adds exactly its ids to the dedup set. An aborted batch adds only some of them |
| `TelegramTimeline.FoldIdempotent` | src/clients/telegram.rs:325-332 | processing a completed batch a second time changes nothing |
| `TelegramTimeline.FoldKeepsWellFormed` | src/clients/telegram.rs:443-445 | a batch keeps the invariants and only appends to existing groups |
| `TelegramTimeline.FoldCountsNewIds` | src/clients/telegram.rs:324-410 | without a panic, the events gained equal the ids newly recorded |
| `TelegramTimeline.InterleavedSenderRejoinsFirstGroup` | src/clients/telegram.rs:353-372 | messages from A, A, B, A give exactly two groups: A's three messages, then B's one |
| `TelegramTimeline.StepJoinsSenderGroup` | src/clients/telegram.rs:353-360 | a new incoming message whose sender already has a group is appended to the first such group |
| `TelegramTimeline.StepOpensSenderGroup` | src/clients/telegram.rs:363-372 | a new incoming message whose sender has no group opens one at the end, holding only that event |
| `Telegram.LookupChat` | src/clients/telegram.rs:451-463 | the chat found has the requested printed id and comes from the list. With no match and no read error the result is "Chat not found: <id>"; any other error comes from a failing read |
| `Telegram.LookupChatFindsFirstMatch` | src/clients/telegram.rs:455-458 | a dialog with the requested printed id, preceded only by readable non-matching dialogs, is the chat returned |
| `Telegram.LookupChatStopsAtReadError` | src/clients/telegram.rs:455 | a failing dialog read preceded only by readable non-matching dialogs ends the search with that read's error |
| `Telegram.FindChat` | src/clients/telegram.rs:451-463 | the dialog loop returns what `LookupChat` specifies |
| `Telegram.ListChats` | src/clients/telegram.rs:530-546 | one chat per dialog, in order, with the printed id, the name and no avatar. It fails exactly when a read fails, with the first failure |
| `Telegram.DeleteTarget` | src/clients/telegram.rs:607-621 | no selection means nothing to delete. Otherwise the result is the lookup error, then the `i32` parse error, and a request only for the found chat and the parsed id. When the lookup and the parse both succeed, that request is always made |
| `Telegram.ApiCredentials` | src/clients/telegram.rs:103-129 | succeeds exactly when `API_ID` is set and parses as an `i32` and `API_HASH` is set. Each failure has its own message, in that order |
| `Telegram.PrintedApiIdAccepted` | src/clients/telegram.rs:107 | an `API_ID` holding any printed `i32` passes the check |
| `Telegram.Login.constructor` | src/clients/telegram.rs:63-69 | a new form has an empty phone number and no error |
| `Telegram.Login.Show` | src/clients/telegram.rs:102-173 | nothing happens without a click and storage. A failed check shows its message and adds no client. Sign-in success clears the error and adds the client; failure shows "Login failed: " and the error |
| `Telegram.TelegramClient.constructor` | src/clients/telegram.rs:180-187 | a new client has no groups, no selection and an empty dedup set |
| `Telegram.TelegramClient.PushToFirstMatching` | src/clients/telegram.rs:353-372 | the in-place loop appends to the group `FirstMatching` picks, or pushes the new group when there is none |
| `Telegram.TelegramClient.ProcessMessage` | src/clients/telegram.rs:324-410 | the client's groups, dedup set and panic flag are exactly `Step` of the old state, and the invariants hold |
| `Telegram.TelegramClient.ProcessUpdate` | src/clients/telegram.rs:413-422 | a new message is processed as by `Step`. Any other update changes nothing |
| `Telegram.TelegramClient.ProcessMessages` | src/clients/telegram.rs:443-445 | the loop leaves the state `Fold` gives, stopping at the first panic |
| `Telegram.TelegramClient.ProcessUpdates` | src/clients/telegram.rs:495-497 | the update loop of `sync` leaves the state `Fold` gives, stopping at the first panic |
| `Telegram.TelegramClient.LoadChatHistory` | src/clients/telegram.rs:425-448 | a failed fetch changes nothing and returns its error. Otherwise the fetched messages are folded in |
| `Telegram.TelegramClient.SelectChat` | src/clients/telegram.rs:549-564 | if the chat is not found, state and selection are untouched. Otherwise the selection is set, and groups and dedup set are cleared before 20 messages are loaded; a failed load keeps the selection and the empty state |
| `Telegram.TelegramClient.MoreHistoryRequest` | src/clients/telegram.rs:571-587 | the offset is the total number of events over all groups (below 2^31), and the limit is 20 |
| `Telegram.TelegramClient.LoadMoreEvents` | src/clients/telegram.rs:567-604 | nothing without a selection. A failed lookup or fetch changes nothing. Otherwise the messages fetched from that offset are folded in |
| `Telegram.TelegramClient.Sync` | src/clients/telegram.rs:473-500 | corrected order (see ## Findings): the chat is looked up before the client is locked. Then: nothing without a selection or when the chat is not found. Otherwise the latest 10 messages are folded in |
| `Telegram.TelegramClient.DeleteEvent` | src/clients/telegram.rs:607-621 | returns `Ok` without a selection, the lookup or parse error, or the server's answer to deleting exactly the `DeleteTarget` message |
| `Telegram.ShownEventsAreDeletable` | src/clients/telegram.rs:613 | the id of any displayed event passes the `i32` parse of `delete_event` |
| `Telegram.ReselectReprocesses` | src/clients/telegram.rs:553-555 | after the reset, a message seen in the previous chat is placed again |
| `Telegram.MessageTimeShown` | src/clients/telegram.rs:346 | the time shown under a fetched message is the UTC hour and minute of its date, for dates before 1970 too |
| `Telegram.SyncAsWrittenDeadlocks` | src/clients/telegram.rs:473-483 | with a chat selected, the lock order of `sync` as written waits on a mutex the task already holds |
| `Telegram.SyncLockOpsComplete` | src/clients/telegram.rs:473-500 | looking the chat up before locking the client never self-waits and ends with the mutex released |
| `Telegram.RunLocks` | src/clients/telegram.rs:451-452 | runs lock operations on the non-reentrant client mutex. It waits forever (`None`) only if some operation is a `Lock`, and otherwise ends holding the mutex exactly when the last operation was a `Lock` |
| `Telegram.SyncLockOpsAsWritten` | src/clients/telegram.rs:473-491 | the lock order of `sync` as written: the client mutex is taken first and released last, and with a chat selected the second operation is `find_chat` taking it again |
| `Telegram.SyncLockOps` | src/clients/telegram.rs:473-500 | the corrected lock order: locks and unlocks alternate, starting with a lock |
| `MessageWidget.DefaultStyle` | src/message.rs:29-48 | radius 12, avatar 32, group spacing 8, self side Left; the default style never mirrors |
| `MessageWidget.BubbleRounding` | src/message.rs:200-230 | the sender-side top corner is full exactly on the first bubble and the bottom one exactly on the last, otherwise 2. The outer corners are always full. The corners are mirrored exactly for self groups on the right |
| `MessageWidget.Mirror` | src/message.rs:220-229 | the corner swap for right-side self groups: left and right corners trade places, top and bottom kept |
| `MessageWidget.SingleBubbleFullyRounded` | src/message.rs:201-217 | a bubble both first and last has four full corners |
| `MessageWidget.RightSideMirrorsRounding` | src/message.rs:220-229 | moving self messages to the right mirrors their corners |
| `MessageWidget.Side` | src/message.rs:93-97 | other senders are on the left. Self groups follow the style, and Right happens exactly when mirrored |
| `MessageWidget.RowFlags` | src/message.rs:79-81 | row `i` is first iff `i = 0` and last iff `i = len - 1`. A single row is both |
| `MessageWidget.Pad2` | src/message.rs:237 | two digits reading back as the number |
| `MessageWidget.FormatTime` | src/message.rs:234-239 | a label exists exactly for instants chrono can represent, and it has the shape `DD:DD` |
| `MessageWidget.FormatTimeReadsBack` | src/message.rs:234-239 | the label's hour is `(t div 3600) mod 24` and its minute `(t div 60) mod 60`, and together they bracket the second of the UTC day |
| `MessageWidget.DayClock` | src/message.rs:237 | the hour and minute of the UTC day equal whole hours since the epoch modulo 24 and whole minutes modulo 60 |
| `MessageWidget.GroupLayout` | src/message.rs:75-198 | one row per event, in order, with its text and time and the rounding of its first/last position. The name appears only on the first row of a non-self group. A non-self group has a spacer on every row before the last and the avatar (or a spacer) on the last. Self rows have no leading column |
| `MessageWidget.RowLayout` | src/message.rs:91-198 | one row as `render_message_row` draws it: the group's side, the event's text, the name only on the first row of a non-self group, and no leading column for self rows |
| `MessageWidget.GroupCornersJoin` | src/message.rs:200-230 | consecutive bubbles meet at small corners on the sender's edge, while the group's outer top and bottom are full |
| `Matrix.AlphabetChar` | src/clients/matrix.rs:48 | every sampled character is alphanumeric |
| `Matrix.AlphabetIndex` | src/clients/matrix.rs:48 | every alphanumeric character can be sampled |
| `Matrix.AlphanumericString` | src/clients/matrix.rs:47-60 | `n` characters, all alphanumeric |
| `Matrix.EveryAlphanumericStringReachable` | src/clients/matrix.rs:47-60 | every alphanumeric string of the length is a possible outcome |
| `Matrix.SessionStore.Put` | src/clients/matrix.rs:191-192 | the key maps to the value and nothing else changes |
| `Matrix.MatrixClient.constructor` | src/clients/matrix.rs:30-34 | the client holds the given sessions and token |
| `Matrix.MatrixClient.CurrentRecord` | src/clients/matrix.rs:184-188 | a record exists exactly with a session, and it carries the current token and client session |
| `Matrix.MatrixClient.NextRequest` | src/clients/matrix.rs:164-166 | `since` is sent exactly when a token is held, and it is that token |
| `Matrix.MatrixClient.UpdateSession` | src/clients/matrix.rs:176-195 | without a session it returns "Session expired" and writes nothing. Otherwise it stores the record with the current token, and the store then mirrors the client |
| `Matrix.MatrixClient.Sync` | src/clients/matrix.rs:160-174 | a failed `/sync` leaves token and store alone. Success sets the token to `next_batch` even if the following write fails, and a mirrored store stays mirrored |
| `Matrix.MatrixClient.Login` | src/clients/matrix.rs:37-110 | a 7-character subfolder and a 32-character passphrase are generated. On success the client and the stored record both have no token; on failure nothing is stored |
| `Matrix.MatrixClient.LoadFromStorage` | src/clients/matrix.rs:112-158 | a missing, unreadable or unrestorable record gives the default login option. Otherwise the logged-in client resumes with the stored token and mirrors the store. The restored client's first `/sync` sends the stored token as `since` |
| `App.RouteKey` | src/app.rs:68-112 | "matrix-" keys go to the Matrix loader, other "telegram-" keys to the Telegram loader, and the rest to neither |
| `App.ClientKey` | src/app.rs:136 | the storage key `format!("{}-{}")` (also at src/app.rs:188): the client name, a dash, then the self id |
| `App.SavedTelegramKeyRoutesBack` | src/app.rs:134-136 | the key `save` writes for the "telegram" client is routed to the Telegram loader |
| `App.Loaded` | src/app.rs:68-112 | a key yields a client exactly when its loader succeeds, and the client is what that loader returned |
| `App.LoadKey` | src/app.rs:68-112 | one iteration of the start-up loop over the stored keys |
| `App.LoadKeys` | src/app.rs:68-112 | the start-up loop over the stored keys, in order |
| `App.LoadKeysAtMostOnePerKey` | src/app.rs:68-112 | each key adds at most one client and at most one background sync |
| `App.LoadKeysActive` | src/app.rs:74-105 | loading only appends clients. A restored index is kept; otherwise the index becomes `Some(0)` exactly when a client loads |
| `App.LoadKeysSources` | src/app.rs:68-112 | every loaded client came from a stored key whose loader succeeded. Keys that all fail add nothing |
| `App.LoadKeysSyncTasks` | src/app.rs:75-94 | at most one start-up sync runs, and none with a restored index. It runs only for the first client loaded, and only when that client came from a "matrix-" key |
| `App.ClientIndexToDraw` | src/app.rs:212-215 | the index drawn is the active one or 0, and nothing is drawn when it is past the end of the list |
| `App.StartUpDrawsFirstClient` | src/app.rs:74-76 | after a start-up that loaded a client, the first client is drawn |
| `App.SaveErrors` | src/app.rs:139-141 | at most one logged failure per client, and none when every save succeeds |
| `App.SaveErrorsReportEveryFailure` | src/app.rs:139-141 | every client whose `save` fails has "Failed to save client state: <error>" logged, and every logged message belongs to a failing client |
| `App.StopAt` | src/app.rs:182-203 | the form after which bookkeeping runs is the first at whose end the client list is non-empty |
| `App.AddedBy` | src/app.rs:174-205 | the clients the login forms push: at most one per form, every pushed client is there, and nothing else |
| `App.EChat.Default` | src/app.rs:31-56 | a Matrix form then a Telegram form, and nothing else |
| `App.EChat.New` | src/app.rs:59-125 | without storage this is the default. Otherwise the stored keys, chats and index are restored, every key is loaded in order as `LoadKeys` describes, and two forms are appended when nothing loads |
| `App.EChat.Save` | src/app.rs:129-146 | the key list is rebuilt from empty, one key per client in client order even when a save fails. The failures are logged and the state is written |
| `App.EChat.ShowForms` | src/app.rs:174-205 | forms run in order and add their clients. With storage the loop stops after the first form at whose end the list is non-empty |
| `App.EChat.ShowLoginForms` | src/app.rs:168-208 | after a login, `clients[0]`'s key is recorded and the state written only if its save succeeds. The index becomes `Some(0)` and the forms are dropped either way |
| `App.EChat.ClientToDraw` | src/app.rs:212-215 | the client drawn is within the list, and nothing is drawn exactly when the index is out of range |
| `App.NoClientFourForms` | src/app.rs:116-119 | a restored state from which no client loads offers four login forms |

## Left out

- Drawing is left out: panels, frames, labels, images, colours
  (`calculate_backgrounds`), strokes, margins and `powered_by_egui_and_eframe`.
  Radii and sizes are `f32` values carried as reals and only selected, never
  computed with.
- The chat screen of `show_chat_interface` beyond its bounds check is drawing
  and spawned tasks.
- Concurrency is left out: the tokio runtime, `spawn`, `block_on` and the
  mutexes. Every operation runs to completion in turn, and the background
  sync after a login or at start-up is recorded as a list of clients it was
  spawned for. The one lock-order question that matters is modelled by
  `RunLocks`.
- Serialization is left out: serde JSON of the session records and of
  `EChat`, and the byte encoding of the Telegram session. The stores hold
  values. A record that does not deserialize is `Unreadable`, and an
  unreadable application state is `None`.
- File-system access is left out: the data directory, `create_dir_all`, and
  reading the Telegram session file.
- The Telegram client's own `login`, `load_from_storage` and `save`
  (src/clients/telegram.rs:191-300, 503-527) are session-file and network
  glue. They appear only as the loader, sign-in and save parameters, and the
  hard-coded code and password there are placeholders.
- `Telegram.Login.Show` returns the new client's user id instead of pushing a
  client object. The task it spawns to sync and list chats is not modelled.
  The unused `api_id`/`api_hash` fields of the form are not modelled either.
- `matrix::Login`, the Matrix login form, is not part of this model. In
  `App` it is one of the login forms passed in as `shown`.
- `Telegram.TelegramClient.MoreHistoryRequest`: the offset is stated exactly
  only below 2^31 events; above that it is the `as i32` truncation
  `I32FromUsize`.
- Server semantics are left out: what `offset_id` means to Telegram, the
  order of the returned messages, and the Matrix `/sync` filter. Fetches are
  arbitrary functions of the request.
- A fetch error part-way through a history download is a failed fetch. The
  messages read before it are dropped, as the source's `?` drops them.
- `std::process::exit` on close is process control. The save it follows is
  modelled by `App.EChat.Save`.
- `Event`, `EventKind`, `EventGroup` and `Chat` are not defined in
  src/clients/mod.rs, so they are reconstructed from their uses.
- `Matrix.MatrixClient.IsAuthenticated` is the SDK's session query. It is
  stated through `CurrentRecord` rather than on its own.
- Logging is left out, except that the messages `save` logs for failing
  clients are returned by `App.EChat.Save`. The other `log::error!` calls in
  `new` (src/app.rs:82, 91, 97, 108, 111) and at src/app.rs:178, and the
  `log::info!` calls at src/app.rs:253 and 257, are not modelled.
- Randomness is a stream of sampled indices. Only the length and the
  alphabet of the generated strings are promised.

## Findings

| source | as written | input that shows it | evidently intended | confidence | as-written member | corrected member |
|---|---|---|---|---|---|---|
| src/clients/telegram.rs:473-483 | `sync` takes the client's tokio mutex, then calls `find_chat`, which takes the same mutex again while it is held | any `sync` call while a chat is selected | look the chat up first and then take the mutex for the fetch, as `load_more_events` does | not executed | `Telegram.SyncAsWrittenDeadlocks` | `Telegram.SyncLockOpsComplete`, `Telegram.TelegramClient.Sync` |
