/** The application object's client registry: the persisted client keys
    "<client name>-<self id>", routing stored keys to the right loader at
    start-up, the active client index, the login forms, and the bookkeeping
    after a login. The client loaders, the login forms and the clients' own
    `save` are passed in as functions. */
module App {
  import opened Results
  import opened Clients
  import Telegram

  /** A login form on the start screen. */
  datatype LoginKind = MatrixLogin | TelegramLogin

  /** The forms `EChat::default()` creates: Matrix, then Telegram. */
  const DefaultLogins: seq<LoginKind> := [MatrixLogin, TelegramLogin]

  /** A loaded client as the registry sees it: its `client_name()` and `self_id()`. */
  datatype ClientHandle = ClientHandle(name: string, selfId: string)

  /** The storage key of a client: its name, a dash, its own user id. */
  function ClientKey(c: ClientHandle): (key: string)
    ensures |key| == |c.name| + 1 + |c.selfId|
    ensures key[..|c.name|] == c.name && key[|c.name|] == '-' && key[|c.name| + 1..] == c.selfId
  {
    c.name + "-" + c.selfId
  }

  predicate StartsWith(s: string, prefix: string) {
    |prefix| <= |s| && s[..|prefix|] == prefix
  }

  /** Which loader a stored key goes to. */
  datatype Route = ToMatrix | ToTelegram | Unknown

  const MatrixPrefix: string := "matrix-"
  const TelegramPrefix: string := "telegram-"

  /** The prefix test of `EChat::new`: "matrix-" is tried first, then "telegram-". */
  function RouteKey(key: string): (r: Route)
    ensures r == ToMatrix <==> StartsWith(key, MatrixPrefix)
    ensures r == ToTelegram <==> !StartsWith(key, MatrixPrefix) && StartsWith(key, TelegramPrefix)
    ensures r == Unknown <==> !StartsWith(key, MatrixPrefix) && !StartsWith(key, TelegramPrefix)
  {
    if StartsWith(key, MatrixPrefix) then ToMatrix
    else if StartsWith(key, TelegramPrefix) then ToTelegram
    else Unknown
  }

  /** A key `save` writes for a Telegram client goes back to the Telegram
      loader at the next start. */
  lemma SavedTelegramKeyRoutesBack(selfId: string)
    ensures RouteKey(ClientKey(ClientHandle(Telegram.ClientName, selfId))) == ToTelegram
  {
    var key := ClientKey(ClientHandle(Telegram.ClientName, selfId));
    assert key[..|TelegramPrefix|] == TelegramPrefix;
    assert key[0] != MatrixPrefix[0];
  }

  /** The client a stored key yields: `None` for an unknown prefix or a
      failed load. */
  function Loaded(key: string, loadMatrix: string -> Result<ClientHandle>, loadTelegram: string -> Result<ClientHandle>)
    : (r: Option<ClientHandle>)
    ensures RouteKey(key) == Unknown ==> r.None?
    ensures RouteKey(key) == ToMatrix ==> (r.Some? <==> loadMatrix(key).Ok?) && (r.Some? ==> r.value == loadMatrix(key).value)
    ensures RouteKey(key) == ToTelegram ==> (r.Some? <==> loadTelegram(key).Ok?) && (r.Some? ==> r.value == loadTelegram(key).value)
  {
    match RouteKey(key)
    case Unknown => None
    case ToMatrix => if loadMatrix(key).Ok? then Some(loadMatrix(key).value) else None
    case ToTelegram => if loadTelegram(key).Ok? then Some(loadTelegram(key).value) else None
  }

  /** What start-up builds while going through the keys: the loaded clients,
      the active index, and the clients a background sync was spawned for. */
  datatype Registry = Registry(clients: seq<ClientHandle>, active: Option<nat>, syncTasks: seq<ClientHandle>)

  /** One key of the start-up loop. A loaded client is pushed; the active
      index becomes `Some(0)` if it was `None`, and only a Matrix client
      loaded at that moment gets a background sync. */
  function LoadKey(reg: Registry, key: string, loadMatrix: string -> Result<ClientHandle>,
                   loadTelegram: string -> Result<ClientHandle>): Registry
  {
    match Loaded(key, loadMatrix, loadTelegram)
    case None => reg
    case Some(c) =>
      var spawn := reg.active.None? && RouteKey(key) == ToMatrix;
      Registry(reg.clients + [c], if reg.active.None? then Some(0) else reg.active,
               if spawn then reg.syncTasks + [c] else reg.syncTasks)
  }

  /** The start-up loop over the stored keys, in order. */
  function LoadKeys(reg: Registry, keys: seq<string>, loadMatrix: string -> Result<ClientHandle>,
                    loadTelegram: string -> Result<ClientHandle>): Registry
    decreases |keys|
  {
    if keys == [] then reg
    else LoadKey(LoadKeys(reg, keys[..|keys| - 1], loadMatrix, loadTelegram), keys[|keys| - 1], loadMatrix, loadTelegram)
  }

  /** Each stored key adds at most one client and at most one background
      sync, and start-up adds no more clients or syncs than there are keys. */
  lemma {:induction false} LoadKeysAtMostOnePerKey(reg: Registry, keys: seq<string>, loadMatrix: string -> Result<ClientHandle>,
                                                   loadTelegram: string -> Result<ClientHandle>)
    ensures var r := LoadKeys(reg, keys, loadMatrix, loadTelegram);
      && |reg.clients| <= |r.clients| <= |reg.clients| + |keys|
      && |reg.syncTasks| <= |r.syncTasks| <= |reg.syncTasks| + |keys|
    decreases |keys|
  {
    if keys != [] {
      LoadKeysAtMostOnePerKey(reg, keys[..|keys| - 1], loadMatrix, loadTelegram);
    }
  }

  /** Loading only appends clients, and the active index is the restored one
      if there was one, otherwise `Some(0)` exactly when a client was loaded. */
  lemma {:induction false} LoadKeysActive(reg: Registry, keys: seq<string>, loadMatrix: string -> Result<ClientHandle>,
                                          loadTelegram: string -> Result<ClientHandle>)
    ensures var r := LoadKeys(reg, keys, loadMatrix, loadTelegram);
      && |reg.clients| <= |r.clients| && r.clients[..|reg.clients|] == reg.clients
      && r.active == (if reg.active.Some? then reg.active else if |r.clients| > |reg.clients| then Some(0) else None)
    decreases |keys|
  {
    if keys != [] {
      LoadKeysActive(reg, keys[..|keys| - 1], loadMatrix, loadTelegram);
      var mid := LoadKeys(reg, keys[..|keys| - 1], loadMatrix, loadTelegram);
      var r := LoadKeys(reg, keys, loadMatrix, loadTelegram);
      if Loaded(keys[|keys| - 1], loadMatrix, loadTelegram).Some? {
        assert r.clients[..|mid.clients|] == mid.clients;
        assert r.clients[..|reg.clients|] == mid.clients[..|reg.clients|];
      }
    }
  }

  /** Every loaded client came from a stored key that routes to its loader
      and loaded successfully; unknown prefixes and failed loads add nothing. */
  lemma {:induction false} LoadKeysSources(reg: Registry, keys: seq<string>, loadMatrix: string -> Result<ClientHandle>,
                                           loadTelegram: string -> Result<ClientHandle>)
    ensures var r := LoadKeys(reg, keys, loadMatrix, loadTelegram);
      forall i :: |reg.clients| <= i < |r.clients| ==>
        exists j :: 0 <= j < |keys| && Loaded(keys[j], loadMatrix, loadTelegram) == Some(r.clients[i])
    ensures (forall j :: 0 <= j < |keys| ==> Loaded(keys[j], loadMatrix, loadTelegram).None?)
      ==> LoadKeys(reg, keys, loadMatrix, loadTelegram) == reg
    decreases |keys|
  {
    if keys != [] {
      var prefix := keys[..|keys| - 1];
      LoadKeysSources(reg, prefix, loadMatrix, loadTelegram);
      LoadKeysActive(reg, prefix, loadMatrix, loadTelegram);
      var mid := LoadKeys(reg, prefix, loadMatrix, loadTelegram);
      var r := LoadKeys(reg, keys, loadMatrix, loadTelegram);
      forall i | |reg.clients| <= i < |r.clients|
        ensures exists j :: 0 <= j < |keys| && Loaded(keys[j], loadMatrix, loadTelegram) == Some(r.clients[i])
      {
        if i < |mid.clients| {
          var j :| 0 <= j < |prefix| && Loaded(prefix[j], loadMatrix, loadTelegram) == Some(mid.clients[i]);
          assert keys[j] == prefix[j];
        } else {
          assert Loaded(keys[|keys| - 1], loadMatrix, loadTelegram) == Some(r.clients[i]);
        }
      }
      if forall j :: 0 <= j < |keys| ==> Loaded(keys[j], loadMatrix, loadTelegram).None? {
        assert forall j :: 0 <= j < |prefix| ==> prefix[j] == keys[j];
      }
    }
  }

  /** At most one background sync is spawned at start-up: none when an index
      was restored, and otherwise only for the first client loaded, and only
      when that client came from a "matrix-" key. */
  lemma {:induction false} LoadKeysSyncTasks(reg: Registry, keys: seq<string>, loadMatrix: string -> Result<ClientHandle>,
                                             loadTelegram: string -> Result<ClientHandle>)
    ensures var r := LoadKeys(reg, keys, loadMatrix, loadTelegram);
      && (reg.active.Some? ==> r.syncTasks == reg.syncTasks)
      && (r.syncTasks == reg.syncTasks ||
          (&& reg.active.None?
           && |r.clients| > |reg.clients|
           && r.syncTasks == reg.syncTasks + [r.clients[|reg.clients|]]
           && exists j :: 0 <= j < |keys| && RouteKey(keys[j]) == ToMatrix
                          && Loaded(keys[j], loadMatrix, loadTelegram) == Some(r.clients[|reg.clients|])))
    decreases |keys|
  {
    if keys != [] {
      var prefix := keys[..|keys| - 1];
      var last := keys[|keys| - 1];
      LoadKeysSyncTasks(reg, prefix, loadMatrix, loadTelegram);
      LoadKeysActive(reg, prefix, loadMatrix, loadTelegram);
      var mid := LoadKeys(reg, prefix, loadMatrix, loadTelegram);
      var r := LoadKeys(reg, keys, loadMatrix, loadTelegram);
      if mid.syncTasks != reg.syncTasks {
        var j :| 0 <= j < |prefix| && RouteKey(prefix[j]) == ToMatrix
                 && Loaded(prefix[j], loadMatrix, loadTelegram) == Some(mid.clients[|reg.clients|]);
        assert keys[j] == prefix[j];
        if Loaded(last, loadMatrix, loadTelegram).Some? {
          assert r.clients[|reg.clients|] == mid.clients[|reg.clients|];
        }
      } else if Loaded(last, loadMatrix, loadTelegram).Some? && mid.active.None? && RouteKey(last) == ToMatrix {
        assert mid.clients == mid.clients[..|reg.clients|];
        assert r.clients[|reg.clients|] == Loaded(last, loadMatrix, loadTelegram).value;
      }
    }
  }

  /** Which client the chat screen draws: the active index, or 0 when none
      is set; nothing when that index is past the end of the client list. */
  function ClientIndexToDraw(active: Option<nat>, clientCount: nat): (r: Option<nat>)
    ensures r.Some? <==> active.GetOr(0) < clientCount
    ensures r.Some? ==> r.value == active.GetOr(0) && r.value < clientCount
  {
    var index := active.GetOr(0);
    if index >= clientCount then None else Some(index)
  }

  /** After a start-up that loaded a client, from no index or a restored
      index 0, the chat screen draws the first client. */
  lemma StartUpDrawsFirstClient(reg: Registry, keys: seq<string>, loadMatrix: string -> Result<ClientHandle>,
                                loadTelegram: string -> Result<ClientHandle>)
    requires reg.clients == [] && (reg.active.None? || reg.active == Some(0))
    requires LoadKeys(reg, keys, loadMatrix, loadTelegram).clients != []
    ensures var r := LoadKeys(reg, keys, loadMatrix, loadTelegram);
      ClientIndexToDraw(r.active, |r.clients|) == Some(0)
  {
    LoadKeysActive(reg, keys, loadMatrix, loadTelegram);
  }

  /** The fields of the application object that are written to storage. */
  datatype PersistedApp = PersistedApp(clientKeys: seq<string>, chats: seq<Chat>, activeClientIndex: Option<nat>)

  /** What a missing or unreadable stored state turns into. */
  const DefaultPersisted: PersistedApp := PersistedApp([], [], None)

  /** The application state entry of the storage (`eframe::APP_KEY`);
      `None` when absent or unreadable. */
  class AppStorage {
    var appState: Option<PersistedApp>

    constructor (appState: Option<PersistedApp>)
      ensures this.appState == appState
    {
      this.appState := appState;
    }
  }

  /** The messages logged for clients whose own `save` fails, in client order. */
  function SaveErrors(clients: seq<ClientHandle>, saveClient: (ClientHandle, string) -> Result<()>): (errors: seq<string>)
    ensures |errors| <= |clients|
    ensures (forall i :: 0 <= i < |clients| ==> saveClient(clients[i], ClientKey(clients[i])).Ok?) ==> errors == []
  {
    if clients == [] then []
    else
      var c := clients[|clients| - 1];
      var earlier := SaveErrors(clients[..|clients| - 1], saveClient);
      var result := saveClient(c, ClientKey(c));
      if result.Err? then earlier + ["Failed to save client state: " + result.error] else earlier
  }

  /** Every client whose own `save` fails has its message logged, and every
      logged message is that of a failing client. */
  lemma {:induction false} SaveErrorsReportEveryFailure(clients: seq<ClientHandle>, saveClient: (ClientHandle, string) -> Result<()>)
    ensures forall i :: 0 <= i < |clients| && saveClient(clients[i], ClientKey(clients[i])).Err? ==>
      "Failed to save client state: " + saveClient(clients[i], ClientKey(clients[i])).error in SaveErrors(clients, saveClient)
    ensures forall e :: e in SaveErrors(clients, saveClient) ==>
      (exists i :: 0 <= i < |clients| && saveClient(clients[i], ClientKey(clients[i])).Err?
        && e == "Failed to save client state: " + saveClient(clients[i], ClientKey(clients[i])).error)
  {
    if clients != [] {
      var n := |clients| - 1;
      var init := clients[..n];
      SaveErrorsReportEveryFailure(init, saveClient);
      assert forall i :: 0 <= i < n ==> init[i] == clients[i];
    }
  }

  /** The clients added by the first `n` login forms in one frame. */
  function AddedBy(shown: nat -> Option<ClientHandle>, n: nat): (added: seq<ClientHandle>)
    ensures |added| <= n
    ensures forall j :: 0 <= j < n && shown(j).Some? ==> shown(j).value in added
    ensures forall c :: c in added ==> exists j :: 0 <= j < n && shown(j) == Some(c)
  {
    if n == 0 then []
    else AddedBy(shown, n - 1) + (if shown(n - 1).Some? then [shown(n - 1).value] else [])
  }

  /** The form after which the bookkeeping runs: the first at whose end the
      client list is not empty. */
  function StopAt(before: seq<ClientHandle>, shown: nat -> Option<ClientHandle>, from: nat, n: nat): (r: Option<nat>)
    requires from <= n
    ensures r.Some? ==> from <= r.value < n && (before != [] || shown(r.value).Some?)
    ensures r.Some? ==> forall j :: from <= j < r.value ==> before == [] && shown(j).None?
    ensures r.None? ==> forall j :: from <= j < n ==> before == [] && shown(j).None?
    decreases n - from
  {
    if from == n then None
    else if before != [] || shown(from).Some? then Some(from)
    else StopAt(before, shown, from + 1, n)
  }

  class EChat {
    var logins: seq<LoginKind>
    var clients: seq<ClientHandle>
    var clientKeys: seq<string>
    var chats: seq<Chat>
    var activeClientIndex: Option<nat>
    /** The clients a background sync-and-list-chats task was spawned for. */
    var syncTasks: seq<ClientHandle>

    /** The part `eframe::set_value` writes. */
    function Persisted(): PersistedApp
      reads this
    {
      PersistedApp(clientKeys, chats, activeClientIndex)
    }

    /** `EChat::default()`: the two login forms and nothing else. */
    constructor Default()
      ensures logins == DefaultLogins && clients == [] && clientKeys == [] && chats == []
      ensures activeClientIndex == None && syncTasks == []
    {
      logins := DefaultLogins;
      clients := [];
      clientKeys := [];
      chats := [];
      activeClientIndex := None;
      syncTasks := [];
    }

    /** `EChat::new`. Without storage it is the default. Otherwise the stored
        state is restored (its skipped fields, the login forms among them,
        come from the default), every stored key is loaded in order, and if
        no client was loaded a Matrix and a Telegram form are appended to the
        ones already there. */
    constructor New(storage: Option<AppStorage>, loadMatrix: string -> Result<ClientHandle>,
                    loadTelegram: string -> Result<ClientHandle>)
      ensures storage.None? ==>
        && logins == DefaultLogins && clients == [] && clientKeys == [] && chats == []
        && activeClientIndex == None && syncTasks == []
      ensures storage.Some? ==>
        var restored := storage.value.appState.GetOr(DefaultPersisted);
        var reg := LoadKeys(Registry([], restored.activeClientIndex, []), restored.clientKeys, loadMatrix, loadTelegram);
        && clientKeys == restored.clientKeys && chats == restored.chats
        && clients == reg.clients && activeClientIndex == reg.active && syncTasks == reg.syncTasks
        && logins == DefaultLogins + (if reg.clients == [] then DefaultLogins else [])
    {
      var restored := if storage.Some? then storage.value.appState.GetOr(DefaultPersisted) else DefaultPersisted;
      logins := DefaultLogins;
      clients := [];
      clientKeys := restored.clientKeys;
      chats := restored.chats;
      activeClientIndex := restored.activeClientIndex;
      syncTasks := [];
      new;
      if storage.Some? {
        var keys := clientKeys;
        var i := 0;
        while i < |keys|
          invariant 0 <= i <= |keys|
          invariant clientKeys == keys && chats == restored.chats && logins == DefaultLogins
          invariant Registry(clients, activeClientIndex, syncTasks)
                 == LoadKeys(Registry([], restored.activeClientIndex, []), keys[..i], loadMatrix, loadTelegram)
        {
          assert keys[..i + 1][..i] == keys[..i];
          var key := keys[i];
          if StartsWith(key, MatrixPrefix) {
            var loaded := loadMatrix(key);
            if loaded.Ok? {
              clients := clients + [loaded.value];
              if activeClientIndex.None? {
                activeClientIndex := Some(0);
                syncTasks := syncTasks + [loaded.value];
              }
            }
          } else if StartsWith(key, TelegramPrefix) {
            var loaded := loadTelegram(key);
            if loaded.Ok? {
              clients := clients + [loaded.value];
              if activeClientIndex.None? {
                activeClientIndex := Some(0);
              }
            }
          }
          i := i + 1;
        }
        assert keys[..|keys|] == keys;
        if clients == [] {
          logins := logins + DefaultLogins;
        }
      }
    }

    /** `App::save`: the key list is rebuilt from empty, one key per client in
        client order, whether or not that client's own save succeeds; then
        the state is written. Returns the logged failures. */
    method Save(storage: AppStorage, saveClient: (ClientHandle, string) -> Result<()>) returns (errors: seq<string>)
      modifies this`clientKeys, storage`appState
      ensures |clientKeys| == |clients|
      ensures forall i :: 0 <= i < |clients| ==> clientKeys[i] == ClientKey(clients[i])
      ensures errors == SaveErrors(clients, saveClient)
      ensures storage.appState == Some(Persisted())
    {
      clientKeys := [];
      errors := [];
      var i := 0;
      while i < |clients|
        invariant 0 <= i <= |clients|
        invariant |clientKeys| == i
        invariant forall k :: 0 <= k < i ==> clientKeys[k] == ClientKey(clients[k])
        invariant errors == SaveErrors(clients[..i], saveClient)
      {
        assert clients[..i + 1][..i] == clients[..i];
        var key := ClientKey(clients[i]);
        clientKeys := clientKeys + [key];
        var saved := saveClient(clients[i], key);
        if saved.Err? {
          errors := errors + ["Failed to save client state: " + saved.error];
        }
        i := i + 1;
      }
      assert clients[..|clients|] == clients;
      storage.appState := Some(Persisted());
    }

    /** The loop of `show_login_forms` up to its `break`: each form is shown
        in turn and may add a client; with storage the loop stops after the
        first form at whose end the client list is not empty, and returns that
        form's position. */
    method ShowForms(hasStorage: bool, shown: nat -> Option<ClientHandle>) returns (stop: Option<nat>)
      modifies this`clients
      ensures stop == (if hasStorage then StopAt(old(clients), shown, 0, |logins|) else None)
      ensures stop.None? ==> clients == old(clients) + AddedBy(shown, |logins|)
      ensures stop.Some? ==> clients == old(clients) + AddedBy(shown, stop.value + 1) && clients != []
    {
      var i := 0;
      while i < |logins|
        invariant 0 <= i <= |logins|
        invariant clients == old(clients) + AddedBy(shown, i)
        invariant hasStorage ==> StopAt(old(clients), shown, 0, |logins|) == StopAt(old(clients), shown, i, |logins|)
        invariant hasStorage && 0 < i ==> old(clients) == [] && clients == []
      {
        var added := shown(i);
        if added.Some? {
          clients := clients + [added.value];
        }
        if clients != [] && hasStorage {
          return Some(i);
        }
        i := i + 1;
      }
      return None;
    }

    /** `show_login_forms`. Once a form has added a client, and storage is
        available, `clients[0]` is saved under its key; on success the key is
        recorded and the state written (with the index as it was), and in any
        case the index becomes `Some(0)` and the forms are dropped. Without
        storage every form is shown and nothing else changes. */
    method ShowLoginForms(hasStorage: bool, storage: AppStorage, shown: nat -> Option<ClientHandle>,
                          saveClient: (ClientHandle, string) -> Result<()>)
      modifies this`clients, this`clientKeys, this`activeClientIndex, this`logins, storage`appState
      ensures var stop := if hasStorage then StopAt(old(clients), shown, 0, |old(logins)|) else None;
        stop.None? ==>
          && clients == old(clients) + AddedBy(shown, |old(logins)|)
          && logins == old(logins) && clientKeys == old(clientKeys) && activeClientIndex == old(activeClientIndex)
          && storage.appState == old(storage.appState)
      ensures var stop := if hasStorage then StopAt(old(clients), shown, 0, |old(logins)|) else None;
        stop.Some? ==>
          && clients == old(clients) + AddedBy(shown, stop.value + 1)
          && clients != [] && logins == [] && activeClientIndex == Some(0)
      ensures var stop := if hasStorage then StopAt(old(clients), shown, 0, |old(logins)|) else None;
        stop.Some? && saveClient(clients[0], ClientKey(clients[0])).Ok? ==>
          && clientKeys == old(clientKeys) + [ClientKey(clients[0])]
          && storage.appState == Some(PersistedApp(clientKeys, chats, old(activeClientIndex)))
      ensures var stop := if hasStorage then StopAt(old(clients), shown, 0, |old(logins)|) else None;
        stop.Some? && saveClient(clients[0], ClientKey(clients[0])).Err? ==>
          clientKeys == old(clientKeys) && storage.appState == old(storage.appState)
    {
      var stop := ShowForms(hasStorage, shown);
      if stop.Some? {
        var key := ClientKey(clients[0]);
        var saved := saveClient(clients[0], key);
        if saved.Ok? {
          clientKeys := clientKeys + [key];
          storage.appState := Some(Persisted());
        }
        activeClientIndex := Some(0);
        logins := [];
      }
    }

    /** The bounds check of `show_chat_interface`: the index of the client
        whose chats and messages are drawn, if any. */
    function ClientToDraw(): (r: Option<nat>)
      reads this
      ensures r.Some? ==> r.value < |clients|
      ensures r.None? <==> activeClientIndex.GetOr(0) >= |clients|
    {
      ClientIndexToDraw(activeClientIndex, |clients|)
    }
  }

  /** A restored state with no loadable client offers four login forms: the
      two restored from the default, and the two appended. */
  lemma NoClientFourForms(restored: PersistedApp, loadMatrix: string -> Result<ClientHandle>,
                          loadTelegram: string -> Result<ClientHandle>)
    requires forall j :: 0 <= j < |restored.clientKeys| ==> Loaded(restored.clientKeys[j], loadMatrix, loadTelegram).None?
    ensures var reg := LoadKeys(Registry([], restored.activeClientIndex, []), restored.clientKeys, loadMatrix, loadTelegram);
      reg.clients == [] && |DefaultLogins + (if reg.clients == [] then DefaultLogins else [])| == 4
  {
    LoadKeysSources(Registry([], restored.activeClientIndex, []), restored.clientKeys, loadMatrix, loadTelegram);
  }
}
