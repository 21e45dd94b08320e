/**
 * The application store: the state, the twelve actions and the reducer
 * that applies them, the hydration of the state from the browser store on
 * start-up, and the two write-back policies that persist it again (the
 * settings after every change, the current session after a one-second
 * quiet period or at once when the page is hidden).
 */
module Store {
  import opened Wrappers
  import opened Types
  import Storage

  datatype AppState = AppState(
    sessions: seq<ChatSession>,
    currentSessionId: Option<string>,
    apiKeys: map<string, string>,
    theme: Theme,
    textSize: TextSize,
    isSidebarOpen: bool,
    isSettingsOpen: bool,
    defaultModelConfig: ModelConfig)

  const InitialModelConfig: ModelConfig := ModelConfig("openai", "gpt-4o", Some(0.7), None, None)

  const InitialState: AppState := AppState([], None, map[], Dark, Medium, true, false, InitialModelConfig)

  /** `Partial<AppState>`: `None` is a field the object does not carry. */
  datatype PartialState = PartialState(
    sessions: Option<seq<ChatSession>>,
    currentSessionId: Option<Option<string>>,
    apiKeys: Option<map<string, string>>,
    theme: Option<Theme>,
    textSize: Option<TextSize>,
    isSidebarOpen: Option<bool>,
    isSettingsOpen: Option<bool>,
    defaultModelConfig: Option<ModelConfig>)

  datatype Action =
    | SetApiKey(provider: string, key: string)
    | CreateSession(session: ChatSession)
    | DeleteSession(sessionId: string)
    | SelectSession(sessionId: string)
    | AddMessage(sessionId: string, message: Message)
    | UpdateMessage(sessionId: string, messageId: string, content: string)
    | ToggleSidebar
    | ToggleSettings
    | SetTheme(theme: Theme)
    | SetTextSize(size: TextSize)
    | SetModel(config: ModelConfig)
    | LoadState(partial: PartialState)

  function Or<T>(field: Option<T>, current: T): T
  {
    if field.Some? then field.value else current
  }

  /** `{ ...state, ...partial }`. */
  function Merge(state: AppState, partial: PartialState): AppState
  {
    AppState(
      Or(partial.sessions, state.sessions),
      Or(partial.currentSessionId, state.currentSessionId),
      Or(partial.apiKeys, state.apiKeys),
      Or(partial.theme, state.theme),
      Or(partial.textSize, state.textSize),
      Or(partial.isSidebarOpen, state.isSidebarOpen),
      Or(partial.isSettingsOpen, state.isSettingsOpen),
      Or(partial.defaultModelConfig, state.defaultModelConfig))
  }

  /** `sessions.filter(s => s.id !== id)`. */
  function WithoutSession(sessions: seq<ChatSession>, id: string): (kept: seq<ChatSession>)
    ensures forall s :: s in kept <==> s in sessions && s.id != id
    ensures |kept| <= |sessions|
  {
    if sessions == [] then []
    else if sessions[0].id == id then WithoutSession(sessions[1..], id)
    else [sessions[0]] + WithoutSession(sessions[1..], id)
  }

  /** The ADD_MESSAGE `map`: every session with the id gets the message appended and the clock reading. */
  function AppendMessage(sessions: seq<ChatSession>, id: string, message: Message, now: int): seq<ChatSession>
  {
    seq(|sessions|, k requires 0 <= k < |sessions| =>
      if sessions[k].id == id
      then sessions[k].(messages := sessions[k].messages + [message], updatedAt := now)
      else sessions[k])
  }

  /** The inner UPDATE_MESSAGE `map` over one session's messages. */
  function ReplaceContent(messages: seq<Message>, messageId: string, content: string): seq<Message>
  {
    seq(|messages|, k requires 0 <= k < |messages| =>
      if messages[k].id == messageId then messages[k].(content := content) else messages[k])
  }

  /** The outer UPDATE_MESSAGE `map` over the sessions. */
  function EditMessage(sessions: seq<ChatSession>, id: string, messageId: string, content: string): seq<ChatSession>
  {
    seq(|sessions|, k requires 0 <= k < |sessions| =>
      if sessions[k].id == id
      then sessions[k].(messages := ReplaceContent(sessions[k].messages, messageId, content))
      else sessions[k])
  }

  /** `appReducer(state, action)`, with `now` the value `Date.now()` returns. */
  function Reduce(state: AppState, action: Action, now: int): AppState
  {
    match action
    case SetApiKey(provider, key) => state.(apiKeys := state.apiKeys[provider := key])
    case CreateSession(session) =>
      state.(sessions := [session] + state.sessions, currentSessionId := Some(session.id))
    case SelectSession(id) => state.(currentSessionId := Some(id))
    case DeleteSession(id) =>
      state.(sessions := WithoutSession(state.sessions, id),
             currentSessionId := if state.currentSessionId == Some(id) then None else state.currentSessionId)
    case AddMessage(id, message) => state.(sessions := AppendMessage(state.sessions, id, message, now))
    case UpdateMessage(id, messageId, content) =>
      state.(sessions := EditMessage(state.sessions, id, messageId, content))
    case ToggleSidebar => state.(isSidebarOpen := !state.isSidebarOpen)
    case ToggleSettings => state.(isSettingsOpen := !state.isSettingsOpen)
    case SetTheme(theme) => state.(theme := theme)
    case SetTextSize(size) => state.(textSize := size)
    case SetModel(config) => state.(defaultModelConfig := config)
    case LoadState(partial) => Merge(state, partial)
  }

  /** Dispatches the actions in order. */
  function ReduceAll(state: AppState, actions: seq<Action>, now: int): AppState
    decreases |actions|
  {
    if actions == [] then state else ReduceAll(Reduce(state, actions[0], now), actions[1..], now)
  }

  lemma ReduceTwo(state: AppState, first: Action, second: Action, now: int)
    ensures ReduceAll(state, [first, second], now) == Reduce(Reduce(state, first, now), second, now)
  {
    var once := Reduce(state, first, now);
    assert [first, second][1..] == [second];
    assert ReduceAll(state, [first, second], now) == ReduceAll(once, [second], now);
    assert [second][1..] == [];
    assert ReduceAll(once, [second], now) == ReduceAll(Reduce(once, second, now), [], now);
  }

  // --------------------------------------------------- reducer lemmas

  /** SET_API_KEY stores the key for that provider and changes nothing else. */
  lemma SetApiKeyOnlyThatKey(state: AppState, provider: string, key: string, now: int)
    ensures var r := Reduce(state, SetApiKey(provider, key), now);
      && provider in r.apiKeys && r.apiKeys[provider] == key
      && (forall p :: p != provider ==> (p in r.apiKeys <==> p in state.apiKeys))
      && (forall p :: p != provider && p in state.apiKeys ==> r.apiKeys[p] == state.apiKeys[p])
      && r.(apiKeys := state.apiKeys) == state
  {
  }

  /** CREATE_SESSION puts the session first, keeps the others in order, and selects it. */
  lemma CreateSessionInFront(state: AppState, session: ChatSession, now: int)
    ensures var r := Reduce(state, CreateSession(session), now);
      && |r.sessions| == |state.sessions| + 1
      && r.sessions[0] == session
      && r.sessions[1..] == state.sessions
      && r.currentSessionId == Some(session.id)
      && r.(sessions := state.sessions, currentSessionId := state.currentSessionId) == state
  {
    var r := Reduce(state, CreateSession(session), now);
    assert r.sessions[1..] == state.sessions;
  }

  /** The current session id is null or names a session in the list. */
  predicate CurrentValid(state: AppState)
  {
    state.currentSessionId.None? || FindSession(state.sessions, state.currentSessionId.value).Some?
  }

  /** The messages of the session at each position keep the ids of the sessions. */
  lemma SameIds(a: seq<ChatSession>, b: seq<ChatSession>, id: string)
    requires |a| == |b| && forall k :: 0 <= k < |a| ==> a[k].id == b[k].id
    ensures FindSession(a, id).Some? <==> FindSession(b, id).Some?
  {
    if FindSession(a, id).Some? {
      var k :| 0 <= k < |a| && a[k].id == id;
      assert b[k].id == id;
    }
    if FindSession(b, id).Some? {
      var k :| 0 <= k < |b| && b[k].id == id;
      assert a[k].id == id;
    }
  }

  /**
   * Every action except SELECT_SESSION and LOAD_STATE keeps the current
   * id valid: CREATE_SESSION selects the session it adds, DELETE_SESSION
   * clears the id when it deletes the current session.
   */
  lemma CurrentValidPreserved(state: AppState, action: Action, now: int)
    requires CurrentValid(state)
    requires !action.SelectSession? && !action.LoadState?
    ensures CurrentValid(Reduce(state, action, now))
  {
    var r := Reduce(state, action, now);
    match action {
      case CreateSession(session) =>
        assert r.sessions[0].id == session.id;
      case DeleteSession(id) =>
        if r.currentSessionId.Some? {
          var cur := r.currentSessionId.value;
          var found := FindSession(state.sessions, cur).value;
          assert found in r.sessions;
          var k :| 0 <= k < |r.sessions| && r.sessions[k] == found;
        }
      case AddMessage(id, message) =>
        if r.currentSessionId.Some? {
          SameIds(state.sessions, r.sessions, r.currentSessionId.value);
        }
      case UpdateMessage(id, messageId, content) =>
        if r.currentSessionId.Some? {
          SameIds(state.sessions, r.sessions, r.currentSessionId.value);
        }
      case _ =>
    }
  }

  /**
   * SELECT_SESSION makes any id current and changes nothing else; the id is
   * not checked, so one that names no session leaves the current id dangling.
   */
  lemma SelectSessionUnchecked(state: AppState, id: string, now: int)
    ensures Reduce(state, SelectSession(id), now) == state.(currentSessionId := Some(id))
    ensures CurrentValid(Reduce(state, SelectSession(id), now)) <==> FindSession(state.sessions, id).Some?
  {
  }

  /** DELETE_SESSION removes every session with the id and keeps the rest; it clears the id only when it was current. */
  lemma DeleteSessionRemoves(state: AppState, id: string, now: int)
    ensures var r := Reduce(state, DeleteSession(id), now);
      && (forall s :: s in r.sessions <==> s in state.sessions && s.id != id)
      && r.currentSessionId == (if state.currentSessionId == Some(id) then None else state.currentSessionId)
      && r.(sessions := state.sessions, currentSessionId := state.currentSessionId) == state
  {
  }

  lemma {:induction false} WithoutSessionIdempotent(sessions: seq<ChatSession>, id: string)
    ensures WithoutSession(WithoutSession(sessions, id), id) == WithoutSession(sessions, id)
    decreases |sessions|
  {
    if sessions != [] {
      WithoutSessionIdempotent(sessions[1..], id);
      if sessions[0].id != id {
        var rest := WithoutSession(sessions[1..], id);
        assert ([sessions[0]] + rest)[1..] == rest;
      }
    }
  }

  /** The filter works element by element: it distributes over concatenation, so survivors keep their order and count. */
  lemma {:induction false} WithoutSessionAppend(a: seq<ChatSession>, b: seq<ChatSession>, id: string)
    ensures WithoutSession(a + b, id) == WithoutSession(a, id) + WithoutSession(b, id)
    decreases |a|
  {
    if a == [] {
      assert a + b == b;
    } else {
      assert (a + b)[1..] == a[1..] + b;
      WithoutSessionAppend(a[1..], b, id);
    }
  }

  /** A list in which no session has the id comes back unchanged. */
  lemma {:induction false} WithoutSessionAbsent(sessions: seq<ChatSession>, id: string)
    requires forall k :: 0 <= k < |sessions| ==> sessions[k].id != id
    ensures WithoutSession(sessions, id) == sessions
    decreases |sessions|
  {
    if sessions != [] {
      WithoutSessionAbsent(sessions[1..], id);
      assert [sessions[0]] + sessions[1..] == sessions;
    }
  }

  /**
   * With the id held by the session at index i alone, DELETE_SESSION takes
   * out exactly that slot: the sessions before and after it keep their order.
   */
  lemma DeleteSessionAt(state: AppState, i: nat, now: int)
    requires i < |state.sessions|
    requires forall k :: 0 <= k < |state.sessions| && k != i ==> state.sessions[k].id != state.sessions[i].id
    ensures Reduce(state, DeleteSession(state.sessions[i].id), now).sessions
      == state.sessions[..i] + state.sessions[i + 1..]
  {
    var s := state.sessions;
    var id := s[i].id;
    assert s == s[..i] + ([s[i]] + s[i + 1..]);
    WithoutSessionAppend(s[..i], [s[i]] + s[i + 1..], id);
    WithoutSessionAppend([s[i]], s[i + 1..], id);
    WithoutSessionAbsent(s[..i], id);
    WithoutSessionAbsent(s[i + 1..], id);
    assert WithoutSession([s[i]], id) == [];
  }

  /** Deleting the same id twice is deleting it once. */
  lemma DeleteSessionIdempotent(state: AppState, id: string, now: int)
    ensures Reduce(Reduce(state, DeleteSession(id), now), DeleteSession(id), now) == Reduce(state, DeleteSession(id), now)
  {
    WithoutSessionIdempotent(state.sessions, id);
  }

  /**
   * ADD_MESSAGE appends the message to the matching sessions and stamps
   * them with the clock; other sessions and all other fields are untouched.
   */
  lemma AddMessageAppends(state: AppState, id: string, message: Message, now: int)
    ensures var r := Reduce(state, AddMessage(id, message), now);
      && |r.sessions| == |state.sessions|
      && (forall k :: 0 <= k < |r.sessions| && state.sessions[k].id == id ==>
            && r.sessions[k].messages == state.sessions[k].messages + [message]
            && r.sessions[k].messages[|r.sessions[k].messages| - 1] == message
            && r.sessions[k].updatedAt == now
            && r.sessions[k].(messages := state.sessions[k].messages, updatedAt := state.sessions[k].updatedAt) == state.sessions[k])
      && (forall k :: 0 <= k < |r.sessions| && state.sessions[k].id != id ==> r.sessions[k] == state.sessions[k])
      && r.(sessions := state.sessions) == state
  {
  }

  /** ADD_MESSAGE for an id no session has leaves the sessions as they are. */
  lemma AddMessageUnknownSession(state: AppState, id: string, message: Message, now: int)
    requires FindSession(state.sessions, id).None?
    ensures Reduce(state, AddMessage(id, message), now) == state
  {
    var r := Reduce(state, AddMessage(id, message), now);
    assert r.sessions == state.sessions;
  }

  /**
   * UPDATE_MESSAGE rewrites only the content of the messages with that id in
   * the matching sessions; counts, order, other fields and `updatedAt` stay.
   */
  lemma UpdateMessageContentOnly(state: AppState, id: string, messageId: string, content: string, now: int)
    ensures var r := Reduce(state, UpdateMessage(id, messageId, content), now);
      && |r.sessions| == |state.sessions|
      && (forall k :: 0 <= k < |r.sessions| ==>
            && r.sessions[k].updatedAt == state.sessions[k].updatedAt
            && |r.sessions[k].messages| == |state.sessions[k].messages|
            && r.sessions[k].(messages := state.sessions[k].messages) == state.sessions[k])
      && (forall k, j :: 0 <= k < |r.sessions| && 0 <= j < |r.sessions[k].messages| ==>
            var before := state.sessions[k].messages[j];
            r.sessions[k].messages[j] ==
              if state.sessions[k].id == id && before.id == messageId then before.(content := content) else before)
      && r.(sessions := state.sessions) == state
  {
  }

  /** Each toggle flips exactly one flag, and toggling twice restores the state. */
  lemma TogglesAreInvolutions(state: AppState, now: int)
    ensures Reduce(state, ToggleSidebar, now).isSidebarOpen == !state.isSidebarOpen
    ensures Reduce(state, ToggleSidebar, now).(isSidebarOpen := state.isSidebarOpen) == state
    ensures Reduce(state, ToggleSettings, now).isSettingsOpen == !state.isSettingsOpen
    ensures Reduce(state, ToggleSettings, now).(isSettingsOpen := state.isSettingsOpen) == state
    ensures Reduce(Reduce(state, ToggleSidebar, now), ToggleSidebar, now) == state
    ensures Reduce(Reduce(state, ToggleSettings, now), ToggleSettings, now) == state
  {
  }

  /** SET_THEME, SET_TEXT_SIZE and SET_MODEL each replace one field. */
  lemma SettersReplaceOneField(state: AppState, theme: Theme, size: TextSize, config: ModelConfig, now: int)
    ensures Reduce(state, SetTheme(theme), now) == state.(theme := theme)
    ensures Reduce(state, SetTextSize(size), now) == state.(textSize := size)
    ensures Reduce(state, SetModel(config), now) == state.(defaultModelConfig := config)
  {
  }

  /** LOAD_STATE takes every field the partial carries and keeps every other. */
  lemma LoadStateOverwrites(state: AppState, partial: PartialState, now: int)
    ensures var r := Reduce(state, LoadState(partial), now);
      && (partial.sessions.Some? ==> r.sessions == partial.sessions.value)
      && (partial.sessions.None? ==> r.sessions == state.sessions)
      && (partial.currentSessionId.Some? ==> r.currentSessionId == partial.currentSessionId.value)
      && (partial.currentSessionId.None? ==> r.currentSessionId == state.currentSessionId)
      && (partial.apiKeys.Some? ==> r.apiKeys == partial.apiKeys.value)
      && (partial.apiKeys.None? ==> r.apiKeys == state.apiKeys)
      && (partial.theme.Some? ==> r.theme == partial.theme.value)
      && (partial.theme.None? ==> r.theme == state.theme)
      && (partial.textSize.Some? ==> r.textSize == partial.textSize.value)
      && (partial.textSize.None? ==> r.textSize == state.textSize)
      && (partial.isSidebarOpen.Some? ==> r.isSidebarOpen == partial.isSidebarOpen.value)
      && (partial.isSidebarOpen.None? ==> r.isSidebarOpen == state.isSidebarOpen)
      && (partial.isSettingsOpen.Some? ==> r.isSettingsOpen == partial.isSettingsOpen.value)
      && (partial.isSettingsOpen.None? ==> r.isSettingsOpen == state.isSettingsOpen)
      && (partial.defaultModelConfig.Some? ==> r.defaultModelConfig == partial.defaultModelConfig.value)
      && (partial.defaultModelConfig.None? ==> r.defaultModelConfig == state.defaultModelConfig)
  {
  }

  // -------------------------------------------------------- hydration

  /**
   * The partial state `loadState` builds from what the store returned:
   * the sessions as listed, and each setting or its default when the key
   * is missing.
   */
  function LoadedState(sessions: seq<ChatSession>, settings: map<string, Storage.SettingValue>): (partial: PartialState)
    ensures partial.currentSessionId.None? && partial.isSidebarOpen.None? && partial.isSettingsOpen.None?
  {
    PartialState(
      Some(sessions),
      None,
      Some(if "apiKeys" in settings && settings["apiKeys"].KeyTable? then settings["apiKeys"].keys else map[]),
      Some(if "theme" in settings && settings["theme"].ThemeSetting? then settings["theme"].theme else Dark),
      Some(if "textSize" in settings && settings["textSize"].TextSizeSetting? then settings["textSize"].size else Medium),
      None,
      None,
      Some(if "defaultModelConfig" in settings && settings["defaultModelConfig"].ModelSetting?
           then settings["defaultModelConfig"].config else InitialModelConfig))
  }

  /**
   * The state after `loadState` settles: LOAD_STATE with the loaded
   * partial, or, when reading the store threw, the state as it was.
   */
  function Hydrate(state: AppState, loaded: Result<(seq<ChatSession>, map<string, Storage.SettingValue>), Error>, now: int): AppState
  {
    match loaded
    case Success((sessions, settings)) => Reduce(state, LoadState(LoadedState(sessions, settings)), now)
    case Failure(_) => state
  }

  /** A first visit (nothing stored) hydrates to the dark theme, medium text, no keys and the initial model. */
  lemma HydrationDefaults(state: AppState, now: int)
    ensures var r := Hydrate(state, Success(([], map[])), now);
      && r.sessions == [] && r.apiKeys == map[] && r.theme == Dark && r.textSize == Medium
      && r.defaultModelConfig == InitialModelConfig
      && r.currentSessionId == state.currentSessionId
      && r.isSidebarOpen == state.isSidebarOpen && r.isSettingsOpen == state.isSettingsOpen
  {
  }

  /**
   * Hydration settles each setting on its own: a key stored with a value of
   * its kind gives that value, a missing key its default (`{}`, `'dark'`,
   * `'medium'`, the initial model), whatever the other keys hold.
   */
  lemma HydrationPerKey(state: AppState, sessions: seq<ChatSession>, settings: map<string, Storage.SettingValue>, now: int)
    ensures var r := Hydrate(state, Success((sessions, settings)), now);
      && r.sessions == sessions
      && ("apiKeys" in settings && settings["apiKeys"].KeyTable? ==> r.apiKeys == settings["apiKeys"].keys)
      && ("apiKeys" !in settings ==> r.apiKeys == map[])
      && ("theme" in settings && settings["theme"].ThemeSetting? ==> r.theme == settings["theme"].theme)
      && ("theme" !in settings ==> r.theme == Dark)
      && ("textSize" in settings && settings["textSize"].TextSizeSetting? ==> r.textSize == settings["textSize"].size)
      && ("textSize" !in settings ==> r.textSize == Medium)
      && ("defaultModelConfig" in settings && settings["defaultModelConfig"].ModelSetting? ==>
            r.defaultModelConfig == settings["defaultModelConfig"].config)
      && ("defaultModelConfig" !in settings ==> r.defaultModelConfig == InitialModelConfig)
      && r.currentSessionId == state.currentSessionId
      && r.isSidebarOpen == state.isSidebarOpen && r.isSettingsOpen == state.isSettingsOpen
  {
  }

  /** A failed load dispatches nothing. */
  lemma HydrationFailureKeepsState(state: AppState, error: Error, now: int)
    ensures Hydrate(state, Failure(error), now) == state
  {
  }

  /** A settings record that carries, under the four setting keys, the values written for `state`. */
  predicate CarriesSettings(settings: map<string, Storage.SettingValue>, state: AppState)
  {
    && "apiKeys" in settings && settings["apiKeys"] == Storage.KeyTable(state.apiKeys)
    && "theme" in settings && settings["theme"] == Storage.ThemeSetting(state.theme)
    && "textSize" in settings && settings["textSize"] == Storage.TextSizeSetting(state.textSize)
    && "defaultModelConfig" in settings && settings["defaultModelConfig"] == Storage.ModelSetting(state.defaultModelConfig)
  }

  predicate IsSettingKey(key: Storage.IdbKey)
  {
    key in {Storage.StringKey("apiKeys"), Storage.StringKey("theme"), Storage.StringKey("textSize"),
            Storage.StringKey("defaultModelConfig")}
  }

  /** The settings store maps each of the four setting keys to the value written for `state`. */
  predicate HoldsSettings(keys: seq<Storage.IdbKey>, values: seq<Storage.SettingValue>, state: AppState)
    requires |keys| == |values|
  {
    && Storage.Lookup(keys, values, Storage.StringKey("apiKeys")) == Some(Storage.KeyTable(state.apiKeys))
    && Storage.Lookup(keys, values, Storage.StringKey("theme")) == Some(Storage.ThemeSetting(state.theme))
    && Storage.Lookup(keys, values, Storage.StringKey("textSize")) == Some(Storage.TextSizeSetting(state.textSize))
    && Storage.Lookup(keys, values, Storage.StringKey("defaultModelConfig"))
         == Some(Storage.ModelSetting(state.defaultModelConfig))
  }

  /**
   * Whatever else the settings store holds, a record that carries the four
   * values written for `saved` hydrates any state back to `saved`'s
   * settings and to the listed sessions.
   */
  lemma SettingsSurviveReload(saved: AppState, state: AppState, sessions: seq<ChatSession>,
                              settings: map<string, Storage.SettingValue>, now: int)
    requires CarriesSettings(settings, saved)
    ensures var r := Hydrate(state, Success((sessions, settings)), now);
      && r.sessions == sessions
      && r.apiKeys == saved.apiKeys && r.theme == saved.theme && r.textSize == saved.textSize
      && r.defaultModelConfig == saved.defaultModelConfig
  {
  }

  /**
   * The settings effect: once hydrated, writes the API keys, theme, text
   * size and default model, one `saveSetting` after the other.
   */
  method SaveSettings(storage: Storage.StorageService, state: AppState, hydrated: bool)
    requires storage.Valid()
    modifies storage
    ensures storage.Valid()
    ensures storage.available == old(storage.available) && storage.sessions == old(storage.sessions)
    ensures !hydrated || !storage.available ==>
      storage.settingKeys == old(storage.settingKeys) && storage.settingValues == old(storage.settingValues)
    ensures hydrated && storage.available ==> HoldsSettings(storage.settingKeys, storage.settingValues, state)
    ensures forall k: Storage.IdbKey :: !IsSettingKey(k) ==>
      Storage.Lookup(storage.settingKeys, storage.settingValues, k)
        == Storage.Lookup(old(storage.settingKeys), old(storage.settingValues), k)
  {
    if !hydrated {
      return;
    }
    var done := storage.SaveSetting("apiKeys", Storage.KeyTable(state.apiKeys));
    ghost var keys1, values1 := storage.settingKeys, storage.settingValues;
    done := storage.SaveSetting("theme", Storage.ThemeSetting(state.theme));
    ghost var keys2, values2 := storage.settingKeys, storage.settingValues;
    done := storage.SaveSetting("textSize", Storage.TextSizeSetting(state.textSize));
    ghost var keys3, values3 := storage.settingKeys, storage.settingValues;
    done := storage.SaveSetting("defaultModelConfig", Storage.ModelSetting(state.defaultModelConfig));
    if storage.available {
      SettingKeysDistinct();
    }
  }

  lemma SettingKeysDistinct()
    ensures "apiKeys" != "theme" && "apiKeys" != "textSize" && "apiKeys" != "defaultModelConfig"
    ensures "theme" != "textSize" && "theme" != "defaultModelConfig"
    ensures "textSize" != "defaultModelConfig"
  {
    assert "apiKeys"[0] != "theme"[0] && "apiKeys"[0] != "textSize"[0] && "apiKeys"[0] != "defaultModelConfig"[0];
    assert "theme"[1] != "textSize"[1] && "theme"[0] != "defaultModelConfig"[0];
    assert "textSize"[0] != "defaultModelConfig"[0];
  }

  /** `loadState`'s `Promise.all` of `getSessions()` and `getAllSettings()`. */
  method LoadFromStorage(storage: Storage.StorageService)
    returns (loaded: Storage.Settles<(seq<ChatSession>, map<string, Storage.SettingValue>)>)
    requires storage.Valid()
    ensures loaded.Pending? <==> !storage.available
    ensures loaded.Settled? ==> Storage.IsListing(storage.sessions, loaded.value.0)
    ensures loaded.Settled? ==> forall k :: k in loaded.value.1 <==> Storage.StringKey(k) in storage.settingKeys
    ensures loaded.Settled? ==> forall k :: k in loaded.value.1 ==>
      Storage.Lookup(storage.settingKeys, storage.settingValues, Storage.StringKey(k)) == Some(loaded.value.1[k])
  {
    var sessions := storage.GetSessions();
    var settings := storage.GetAllSettings();
    if sessions.Pending? || settings.Pending? {
      return Storage.Pending;
    }
    loaded := Storage.Settled((sessions.value, settings.value));
  }

  /**
   * Settings written by the effect and read back on the next start are the
   * settings the state had; the sessions come back as the store lists them.
   */
  method SaveThenReload(storage: Storage.StorageService, state: AppState, before: AppState, now: int)
    returns (reloaded: Storage.Settles<AppState>)
    requires storage.Valid()
    modifies storage
    ensures reloaded.Pending? <==> !storage.available
    ensures reloaded.Settled? ==>
      && Storage.IsListing(storage.sessions, reloaded.value.sessions)
      && reloaded.value.apiKeys == state.apiKeys
      && reloaded.value.theme == state.theme
      && reloaded.value.textSize == state.textSize
      && reloaded.value.defaultModelConfig == state.defaultModelConfig
  {
    SaveSettings(storage, state, true);
    var loaded := LoadFromStorage(storage);
    if loaded.Pending? {
      return Storage.Pending;
    }
    var (sessions, settings) := loaded.value;
    StoredSettingsReadBack(storage.settingKeys, storage.settingValues, state, settings);
    SettingsSurviveReload(state, before, sessions, settings, now);
    reloaded := Storage.Settled(Hydrate(before, Success((sessions, settings)), now));
  }

  /** A record built as `getAllSettings` builds it carries the four values the store holds. */
  lemma StoredSettingsReadBack(keys: seq<Storage.IdbKey>, values: seq<Storage.SettingValue>, state: AppState,
                               settings: map<string, Storage.SettingValue>)
    requires |keys| == |values| && HoldsSettings(keys, values, state)
    requires forall k :: k in settings <==> Storage.StringKey(k) in keys
    requires forall k :: k in settings ==> Storage.Lookup(keys, values, Storage.StringKey(k)) == Some(settings[k])
    ensures CarriesSettings(settings, state)
  {
    assert Storage.StringKey("apiKeys") in keys && Storage.StringKey("theme") in keys;
    assert Storage.StringKey("textSize") in keys && Storage.StringKey("defaultModelConfig") in keys;
  }

  // ------------------------------------------------ session write-back

  /** A JavaScript-truthy session id: present and not the empty string. */
  predicate Truthy(id: Option<string>)
  {
    id.Some? && id.value != ""
  }

  /**
   * The write-back's memory: whether hydration has finished, the session
   * snapshot a pending timer will save (the single `saveTimeoutRef` slot),
   * and every session handed to `saveSession` so far.
   */
  datatype WriteBack = WriteBack(hydrated: bool, pending: Option<ChatSession>, saved: seq<ChatSession>)

  datatype SaveEvent =
    | HydrationDone
    | SessionsChanged(state: AppState)  // the effect re-runs: sessions, current id or hydration changed
    | TimerFired
    | PageHidden(state: AppState)       // `visibilitychange` with `visibilityState === 'hidden'`

  /** The session the effects would save for a state, if any. */
  function CurrentSession(state: AppState): (found: Option<ChatSession>)
    ensures found.Some? ==> Truthy(state.currentSessionId) && found.value in state.sessions
    ensures found.Some? ==> found.value.id == state.currentSessionId.value
  {
    if Truthy(state.currentSessionId) then FindSession(state.sessions, state.currentSessionId.value) else None
  }

  function OnSaveEvent(wb: WriteBack, event: SaveEvent): WriteBack
  {
    match event
    case HydrationDone => wb.(hydrated := true)
    case SessionsChanged(state) =>
      if wb.hydrated && CurrentSession(state).Some? then wb.(pending := CurrentSession(state)) else wb
    case TimerFired =>
      if wb.pending.Some? then WriteBack(wb.hydrated, None, wb.saved + [wb.pending.value]) else wb
    case PageHidden(state) =>
      if !Truthy(state.currentSessionId) then wb
      else if CurrentSession(state).Some? then WriteBack(wb.hydrated, None, wb.saved + [CurrentSession(state).value])
      else wb.(pending := None)
  }

  function RunEvents(wb: WriteBack, events: seq<SaveEvent>): WriteBack
    decreases |events|
  {
    if events == [] then wb else RunEvents(OnSaveEvent(wb, events[0]), events[1..])
  }

  function Changes(states: seq<AppState>): (events: seq<SaveEvent>)
    ensures |events| == |states|
  {
    if states == [] then [] else [SessionsChanged(states[0])] + Changes(states[1..])
  }

  /** A state whose current id is truthy and names a session. */
  predicate HasCurrent(state: AppState)
  {
    CurrentSession(state).Some?
  }

  /**
   * Debounce: a burst of changes while hydrated leaves one pending timer,
   * holding the snapshot of the last state, and saves nothing yet.
   */
  lemma {:induction false} BurstLeavesOneTimer(wb: WriteBack, states: seq<AppState>)
    requires wb.hydrated && states != []
    requires HasCurrent(states[|states| - 1])
    ensures RunEvents(wb, Changes(states)).pending == CurrentSession(states[|states| - 1])
    ensures RunEvents(wb, Changes(states)).saved == wb.saved
    ensures RunEvents(wb, Changes(states)).hydrated
    decreases |states|
  {
    var next := OnSaveEvent(wb, SessionsChanged(states[0]));
    assert Changes(states)[1..] == Changes(states[1..]);
    if |states| > 1 {
      BurstLeavesOneTimer(next, states[1..]);
    } else {
      assert Changes(states[1..]) == [];
    }
  }

  lemma {:induction false} RunEventsAppend(wb: WriteBack, a: seq<SaveEvent>, b: seq<SaveEvent>)
    ensures RunEvents(wb, a + b) == RunEvents(RunEvents(wb, a), b)
    decreases |a|
  {
    if a == [] {
      assert a + b == b;
    } else {
      assert (a + b)[1..] == a[1..] + b;
      RunEventsAppend(OnSaveEvent(wb, a[0]), a[1..], b);
    }
  }

  /** A burst of changes followed by the timer saves exactly one session: the last state's. */
  lemma BurstSavesOnce(wb: WriteBack, states: seq<AppState>)
    requires wb.hydrated && states != []
    requires HasCurrent(states[|states| - 1])
    ensures RunEvents(wb, Changes(states) + [TimerFired]).saved
      == wb.saved + [CurrentSession(states[|states| - 1]).value]
    ensures RunEvents(wb, Changes(states) + [TimerFired]).pending.None?
  {
    BurstLeavesOneTimer(wb, states);
    RunEventsAppend(wb, Changes(states), [TimerFired]);
  }

  /** Before hydration a change schedules nothing. */
  lemma NoTimerBeforeHydration(wb: WriteBack, states: seq<AppState>)
    requires !wb.hydrated
    ensures RunEvents(wb, Changes(states)) == wb
  {
    if states != [] {
      assert Changes(states)[1..] == Changes(states[1..]);
      NoTimerBeforeHydration(wb, states[1..]);
    }
  }

  /** Hiding the page cancels the timer and saves the current session at once; the timer then saves nothing. */
  lemma HiddenSavesNow(wb: WriteBack, state: AppState)
    requires HasCurrent(state)
    ensures RunEvents(wb, [PageHidden(state)]).pending.None?
    ensures RunEvents(wb, [PageHidden(state)]).saved == wb.saved + [CurrentSession(state).value]
    ensures RunEvents(wb, [PageHidden(state), TimerFired]).saved == wb.saved + [CurrentSession(state).value]
  {
    var hidden := OnSaveEvent(wb, PageHidden(state));
    assert [PageHidden(state), TimerFired][1..] == [TimerFired];
    assert RunEvents(wb, [PageHidden(state), TimerFired]) == RunEvents(hidden, [TimerFired]);
    assert RunEvents(hidden, [TimerFired]) == OnSaveEvent(hidden, TimerFired) == hidden;
  }

  /**
   * The provider's write-back machinery: the hydration flag, the timer
   * slot and the log of sessions handed to the storage service.
   */
  class SessionWriteBack {
    var hydrated: bool
    var pending: Option<ChatSession>
    var saved: seq<ChatSession>

    function Current(): WriteBack
      reads this
    {
      WriteBack(hydrated, pending, saved)
    }

    constructor ()
      ensures Current() == WriteBack(false, None, [])
    {
      hydrated := false;
      pending := None;
      saved := [];
    }

    /** `setIsHydrated(true)` in `loadState`'s `finally`. */
    method MarkHydrated()
      modifies this
      ensures Current() == OnSaveEvent(old(Current()), HydrationDone)
    {
      hydrated := true;
    }

    /** The sessions effect: clears any pending timer and starts one for the current session's snapshot. */
    method OnSessionsChanged(state: AppState)
      modifies this
      ensures Current() == OnSaveEvent(old(Current()), SessionsChanged(state))
      ensures pending.Some? ==> old(pending).Some? || CurrentSession(state).Some?
    {
      if !hydrated {
        return;
      }
      if Truthy(state.currentSessionId) {
        var session := FindSession(state.sessions, state.currentSessionId.value);
        if session.Some? {
          pending := session;
        }
      }
    }

    /** The one-second timer runs out: saves its snapshot and empties the slot. */
    method OnTimer()
      modifies this
      ensures Current() == OnSaveEvent(old(Current()), TimerFired)
    {
      if pending.Some? {
        saved := saved + [pending.value];
        pending := None;
      }
    }

    /** The visibility handler: on hide, cancels the timer and saves the current session now. */
    method OnPageHidden(state: AppState)
      modifies this
      ensures Current() == OnSaveEvent(old(Current()), PageHidden(state))
    {
      if Truthy(state.currentSessionId) {
        pending := None;
        var session := FindSession(state.sessions, state.currentSessionId.value);
        if session.Some? {
          saved := saved + [session.value];
        }
      }
    }
  }
}
