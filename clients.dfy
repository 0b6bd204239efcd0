/** The provider-independent values shared by the chat clients: events, the
    groups they are folded into, chat summaries and the login choice. */
module Clients {
  import opened Ints
  import opened Results

  type Bytes = seq<bv8>

  /** What an event carries; text messages are the only kind. */
  datatype EventKind = Message(text: string)

  /** One event of a conversation; `timestamp` is seconds since the epoch as a `u64`. */
  datatype Event = Event(id: string, timestamp: U64, kind: EventKind)

  /** A run of events shown under one sender. */
  datatype EventGroup = EventGroup(
    userId: string,
    displayName: string,
    avatar: Option<Bytes>,
    events: seq<Event>,
    fromSelf: bool)

  /** A conversation as listed in the side panel. */
  datatype Chat = Chat(id: string, name: Option<string>, avatar: Option<Bytes>)

  /** Either the credentials still to be entered or a restored client. */
  datatype LoginOption<T> = Auth(username: string, password: string) | LoggedIn(client: T)

  /** `LoginOption::default()`: ask for credentials, both fields empty. */
  function DefaultLoginOption<T>(): (r: LoginOption<T>)
    ensures r.Auth? && r.username == [] && r.password == []
  {
    Auth("", "")
  }
}
