/** The Matrix client's sync-token bookkeeping: the `since` token handed to
    the server's `/sync` call, the `next_batch` token it returns, and the
    session record kept in the application's storage under "matrix_session".
    The SDK (building the client, logging in, restoring a session, the sync
    call) is passed in as functions; JSON encoding of the record is left out,
    so the store holds records as values. */
module Matrix {
  import opened Results
  import opened Clients

  /** Where the client keeps its local database and the key protecting it. */
  datatype ClientSession = ClientSession(homeserver: string, passphrase: string, dbSubfolder: string)

  /** The SDK's login session (user, device, access token), opaque here. */
  datatype UserSession = UserSession(userId: string, deviceId: string, accessToken: string)

  /** The stored record: client session, login session and the last sync token. */
  datatype FullSession = FullSession(clientSession: ClientSession, userSession: UserSession, syncToken: Option<string>)

  /** What the store holds under a key: a session record, or text that does
      not deserialize as one. */
  datatype StoredValue = Record(session: FullSession) | Unreadable(text: string)

  const SessionKey: string := "matrix_session"
  const PassphraseLength: nat := 32
  const SubfolderLength: nat := 7

  /** The `/sync` request: the stored token as `since`, absent when there is none. */
  datatype SyncRequest = SyncRequest(since: Option<string>)

  /** The part of the `/sync` response the client keeps. */
  datatype SyncResponse = SyncResponse(nextBatch: string)

  predicate IsAlphanumeric(c: char) {
    'A' <= c <= 'Z' || 'a' <= c <= 'z' || '0' <= c <= '9'
  }

  /** Character `k` of the 62 that `Alphanumeric` samples from: the upper-case
      letters, the lower-case letters, then the digits. */
  function AlphabetChar(k: nat): (c: char)
    requires k < 62
    ensures IsAlphanumeric(c)
  {
    if k < 26 then (('A' as int) + k) as char
    else if k < 52 then (('a' as int) + k - 26) as char
    else (('0' as int) + k - 52) as char
  }

  /** The position of an alphanumeric character in that alphabet. */
  function AlphabetIndex(c: char): (k: nat)
    requires IsAlphanumeric(c)
    ensures k < 62 && AlphabetChar(k) == c
  {
    if 'A' <= c <= 'Z' then (c as int) - ('A' as int)
    else if 'a' <= c <= 'z' then 26 + (c as int) - ('a' as int)
    else 52 + (c as int) - ('0' as int)
  }

  /** `rng.sample_iter(Alphanumeric).take(n)`: `n` characters picked by the
      sampled indices `draws(from)`, `draws(from + 1)`, ... of the random
      stream (reduced modulo 62). */
  function AlphanumericString(draws: nat -> nat, from: nat, n: nat): (s: string)
    ensures |s| == n
    ensures forall i :: 0 <= i < |s| ==> IsAlphanumeric(s[i])
  {
    var s := seq(n, i requires 0 <= i < n => AlphabetChar(draws(from + i) % 62));
    assert forall i :: 0 <= i < n ==> s[i] == AlphabetChar(draws(from + i) % 62);
    s
  }

  /** Every alphanumeric string is a possible outcome, so the length and the
      alphabet are all a caller can rely on. */
  lemma EveryAlphanumericStringReachable(s: string)
    requires forall i :: 0 <= i < |s| ==> IsAlphanumeric(s[i])
    ensures AlphanumericString((i: nat) => if i < |s| then AlphabetIndex(s[i]) else 0, 0, |s|) == s
  {
    var draws := (i: nat) => if i < |s| then AlphabetIndex(s[i]) else 0;
    var t := AlphanumericString(draws, 0, |s|);
    forall i | 0 <= i < |s|
      ensures t[i] == s[i]
    {
      assert draws(i) % 62 == AlphabetIndex(s[i]);
    }
  }

  /** The application's key-value storage, as far as session records go. */
  class SessionStore {
    var entries: map<string, StoredValue>

    constructor (entries: map<string, StoredValue>)
      ensures this.entries == entries
    {
      this.entries := entries;
    }

    /** `set_string` followed by `flush`. */
    method Put(key: string, value: StoredValue)
      modifies this`entries
      ensures entries == old(entries)[key := value]
    {
      entries := entries[key := value];
    }
  }

  class MatrixClient {
    var syncToken: Option<string>
    /** What the SDK's `matrix_auth().session()` returns. */
    var session: Option<UserSession>
    const clientSession: ClientSession

    constructor (clientSession: ClientSession, session: Option<UserSession>, syncToken: Option<string>)
      ensures this.clientSession == clientSession && this.session == session && this.syncToken == syncToken
    {
      this.clientSession := clientSession;
      this.session := session;
      this.syncToken := syncToken;
    }

    /** `is_authenticated`. */
    predicate IsAuthenticated()
      reads this
    {
      session.Some?
    }

    /** The record `update_session` writes for the current state. */
    function CurrentRecord(): (r: Option<FullSession>)
      reads this
      ensures r.Some? <==> session.Some?
      ensures r.Some? ==> r.value.syncToken == syncToken && r.value.clientSession == clientSession
    {
      match session
      case None => None
      case Some(user) => Some(FullSession(clientSession, user, syncToken))
    }

    /** The stored record mirrors this client: same sessions, same token. */
    ghost predicate Mirrored(store: SessionStore)
      reads this, store
    {
      CurrentRecord().Some? && SessionKey in store.entries && store.entries[SessionKey] == Record(CurrentRecord().value)
    }

    /** The request `sync` sends: the token is passed only when one is held. */
    function NextRequest(): (req: SyncRequest)
      reads this
      ensures req.since.Some? <==> syncToken.Some?
      ensures req.since.Some? ==> req.since.value == syncToken.value
    {
      SyncRequest(syncToken)
    }

    /** `update_session`: without a session it fails with "Session expired"
        and writes nothing; otherwise the record with the current token is
        stored. */
    method UpdateSession(store: SessionStore) returns (r: Result<()>)
      modifies store`entries
      ensures session.None? ==> r == Err("Session expired") && store.entries == old(store.entries)
      ensures session.Some? ==> r == Ok(()) && store.entries == old(store.entries)[SessionKey := Record(CurrentRecord().value)]
      ensures r.Ok? <==> Mirrored(store)
    {
      if session.None? {
        return Err("Session expired");
      }
      store.Put(SessionKey, Record(FullSession(clientSession, session.value, syncToken)));
      return Ok(());
    }

    /** `sync`. A failed `/sync` call leaves the token and the store as they
        were. A successful one replaces the token by `next_batch` whatever
        happens next; the record is then written with the new token, or
        "Session expired" is returned. */
    method Sync(store: SessionStore, syncOnce: SyncRequest -> Result<SyncResponse>) returns (r: Result<()>)
      modifies this`syncToken, store`entries
      ensures var response := syncOnce(old(NextRequest()));
        && (response.Err? ==> r == Err(response.error) && syncToken == old(syncToken) && store.entries == old(store.entries))
        && (response.Ok? ==> syncToken == Some(response.value.nextBatch))
        && (response.Ok? && session.None? ==> r == Err("Session expired") && store.entries == old(store.entries))
        && (response.Ok? && session.Some? ==> r == Ok(()) && store.entries == old(store.entries)[SessionKey := Record(CurrentRecord().value)])
      ensures r.Ok? <==> syncOnce(old(NextRequest())).Ok? && session.Some?
      ensures old(Mirrored(store)) ==> Mirrored(store)
    {
      var response := syncOnce(SyncRequest(syncToken));
      if response.Err? {
        return Err(response.error);
      }
      syncToken := Some(response.value.nextBatch);
      r := UpdateSession(store);
    }

    /** `login`. A 7-character subfolder name and then a 32-character
        passphrase are drawn; `authenticate` builds the client on them and
        logs in, yielding the SDK's session if it has one. On success the
        record is stored with no sync token and the client starts without
        one; on failure nothing is stored. */
    static method Login(store: SessionStore, username: string, password: string, homeserver: string,
                        draws: nat -> nat,
                        authenticate: (ClientSession, string, string) -> Result<Option<UserSession>>)
      returns (r: Result<MatrixClient>)
      modifies store`entries
      ensures var cs := ClientSession(homeserver, AlphanumericString(draws, SubfolderLength, PassphraseLength),
                                      AlphanumericString(draws, 0, SubfolderLength));
        && (authenticate(cs, username, password).Err? ==>
              r == Err(authenticate(cs, username, password).error) && store.entries == old(store.entries))
        && (authenticate(cs, username, password) == Ok(None) ==>
              r == Err("Login failed") && store.entries == old(store.entries))
        && (authenticate(cs, username, password).Ok? && authenticate(cs, username, password).value.Some? ==>
              && r.Ok? && fresh(r.value)
              && r.value.clientSession == cs
              && r.value.session == authenticate(cs, username, password).value
              && r.value.syncToken == None
              && store.entries == old(store.entries)[SessionKey := Record(FullSession(cs, r.value.session.value, None))]
              && r.value.Mirrored(store))
      ensures r.Ok? ==> |r.value.clientSession.passphrase| == PassphraseLength && |r.value.clientSession.dbSubfolder| == SubfolderLength
    {
      var subfolder := AlphanumericString(draws, 0, SubfolderLength);
      var passphrase := AlphanumericString(draws, SubfolderLength, PassphraseLength);
      var cs := ClientSession(homeserver, passphrase, subfolder);
      var authenticated := authenticate(cs, username, password);
      if authenticated.Err? {
        return Err(authenticated.error);
      }
      if authenticated.value.None? {
        return Err("Login failed");
      }
      var user := authenticated.value.value;
      store.Put(SessionKey, Record(FullSession(cs, user, None)));
      var client := new MatrixClient(cs, Some(user), None);
      return Ok(client);
    }

    /** `load_from_storage`: the stored record, if it reads back and `restore`
        (building the client and restoring its login session) succeeds, gives
        a logged-in client with the stored token; anything else gives the
        empty login form. */
    static method LoadFromStorage(store: SessionStore, restore: FullSession -> Result<()>)
      returns (r: LoginOption<MatrixClient>)
      ensures (SessionKey !in store.entries || store.entries[SessionKey].Unreadable?) ==> r == DefaultLoginOption()
      ensures SessionKey in store.entries && store.entries[SessionKey].Record? ==>
        var record := store.entries[SessionKey].session;
        && (restore(record).Err? ==> r == DefaultLoginOption())
        && (restore(record).Ok? ==>
              && r.LoggedIn? && fresh(r.client)
              && r.client.syncToken == record.syncToken
              && r.client.NextRequest() == SyncRequest(record.syncToken)
              && r.client.clientSession == record.clientSession
              && r.client.session == Some(record.userSession)
              && r.client.Mirrored(store))
    {
      if SessionKey !in store.entries {
        return DefaultLoginOption();
      }
      match store.entries[SessionKey]
      case Unreadable(_) =>
        return DefaultLoginOption();
      case Record(record) =>
        var restored := restore(record);
        if restored.Err? {
          return DefaultLoginOption();
        }
        var client := new MatrixClient(record.clientSession, Some(record.userSession), record.syncToken);
        return LoggedIn(client);
    }
  }
}
