/**
 * Back-button support on small screens: the open view is mirrored in the
 * URL hash (`#settings`, `#chat`, or none for the session list), and a
 * `popstate` event (the browser's Back) closes whatever the hash no
 * longer shows.
 */
module MobileNavigation {
  import opened Wrappers
  import opened Store

  /** Viewports narrower than this many CSS pixels count as mobile. */
  const MobileWidth: int := 640

  const SettingsHash: string := "#settings"
  const ChatHash: string := "#chat"

  datatype HistoryEffect = PushSettings | PushChat | ReplaceRoot | NoEffect

  /** The state-to-hash effect, run whenever the settings flag, the current session or the sidebar flag changes. */
  function HashSync(state: AppState, width: int, hash: string): (effect: HistoryEffect)
    ensures effect == PushSettings <==> state.isSettingsOpen && hash != SettingsHash
    ensures effect == PushChat <==>
      !state.isSettingsOpen && width < MobileWidth && Truthy(state.currentSessionId) && !state.isSidebarOpen
      && hash != ChatHash
    ensures effect == ReplaceRoot ==> !state.isSettingsOpen && (hash == SettingsHash || hash == ChatHash)
  {
    var isMobile := width < MobileWidth;
    if state.isSettingsOpen then
      (if hash != SettingsHash then PushSettings else NoEffect)
    else if isMobile && Truthy(state.currentSessionId) && !state.isSidebarOpen then
      (if hash != ChatHash then PushChat else NoEffect)
    else if hash == SettingsHash || (hash == ChatHash && isMobile) then ReplaceRoot
    else NoEffect
  }

  /** The hash once the effect has run; `replaceState(null, '', ' ')` drops the fragment. */
  function HashAfter(effect: HistoryEffect, hash: string): string
  {
    match effect
    case PushSettings => SettingsHash
    case PushChat => ChatHash
    case ReplaceRoot => ""
    case NoEffect => hash
  }

  /** The `popstate` handler: the actions it dispatches for the hash Back led to. */
  function PopState(state: AppState, width: int, hash: string): (actions: seq<Action>)
    ensures |actions| <= 1
    ensures actions == [] <==> !(state.isSettingsOpen && hash != SettingsHash)
                               && !(width < MobileWidth && !state.isSidebarOpen && hash != ChatHash)
  {
    if state.isSettingsOpen && hash != SettingsHash then [ToggleSettings]
    else if width < MobileWidth && !state.isSidebarOpen && hash != ChatHash then [ToggleSidebar]
    else []
  }

  /** The session history of the tab: one hash per entry and the current position. */
  class BrowserHistory {
    var entries: seq<string>
    var index: nat

    ghost predicate Valid()
      reads this
    {
      index < |entries|
    }

    function Hash(): string
      reads this
      requires Valid()
    {
      entries[index]
    }

    constructor (hash: string)
      ensures Valid() && entries == [hash] && index == 0
    {
      entries := [hash];
      index := 0;
    }

    /** Runs an effect: a push drops the forward entries and appends one; a replace rewrites the current one. */
    method Apply(effect: HistoryEffect)
      requires Valid()
      modifies this
      ensures Valid()
      ensures Hash() == HashAfter(effect, old(Hash()))
      ensures effect.PushSettings? || effect.PushChat? ==>
        entries == old(entries[..index + 1]) + [Hash()] && index == old(index) + 1
      ensures effect.ReplaceRoot? ==> entries == old(entries[index := ""]) && index == old(index)
      ensures effect.NoEffect? ==> entries == old(entries) && index == old(index)
    {
      match effect {
        case PushSettings =>
          entries := entries[..index + 1] + [SettingsHash];
          index := index + 1;
        case PushChat =>
          entries := entries[..index + 1] + [ChatHash];
          index := index + 1;
        case ReplaceRoot =>
          entries := entries[index := ""];
        case NoEffect =>
      }
    }

    /**
     * The Back button: moves to the previous entry, if there is one. At the
     * first entry a browser would leave the page; that is outside this
     * model, which stays where it is.
     */
    method Back()
      requires Valid()
      modifies this`index
      ensures Valid()
      ensures index == if old(index) > 0 then old(index) - 1 else old(index)
    {
      if index > 0 {
        index := index - 1;
      }
    }
  }

  // ------------------------------------------------------------ lemmas

  /** Settings take precedence: while they are open the effect never concerns the chat view. */
  lemma SettingsFirst(state: AppState, width: int, hash: string)
    requires state.isSettingsOpen
    ensures HashSync(state, width, hash) == (if hash == SettingsHash then NoEffect else PushSettings)
  {
  }

  /** Outside the two views, only a replace can happen, and only to leave `#settings` or a mobile `#chat`. */
  lemma RootOnlyReplaces(state: AppState, width: int, hash: string)
    requires !state.isSettingsOpen
    requires !(width < MobileWidth && Truthy(state.currentSessionId) && !state.isSidebarOpen)
    ensures HashSync(state, width, hash) == ReplaceRoot <==>
      hash == SettingsHash || (hash == ChatHash && width < MobileWidth)
    ensures HashSync(state, width, hash) != ReplaceRoot ==> HashSync(state, width, hash) == NoEffect
  {
  }

  /** Running the sync again with the same state, after its own effect, pushes nothing and replaces nothing. */
  lemma SyncSettles(state: AppState, width: int, hash: string)
    ensures HashSync(state, width, HashAfter(HashSync(state, width, hash), hash)) == NoEffect
  {
  }

  /** Back from `#settings` to a hash that is not `#settings` closes the settings, and does nothing else. */
  lemma BackClosesSettings(state: AppState, width: int, hash: string, now: int)
    requires state.isSettingsOpen && hash != SettingsHash
    ensures PopState(state, width, hash) == [ToggleSettings]
    ensures ReduceAll(state, PopState(state, width, hash), now) == state.(isSettingsOpen := false)
  {
    assert [ToggleSettings][1..] == [];
  }

  /** On mobile, Back away from `#chat` with the sidebar closed opens the sidebar. */
  lemma BackShowsSidebar(state: AppState, width: int, hash: string, now: int)
    requires !(state.isSettingsOpen && hash != SettingsHash)
    requires width < MobileWidth && !state.isSidebarOpen && hash != ChatHash
    ensures PopState(state, width, hash) == [ToggleSidebar]
    ensures ReduceAll(state, PopState(state, width, hash), now) == state.(isSidebarOpen := true)
  {
    assert [ToggleSidebar][1..] == [];
  }

  /**
   * Opening the settings pushes `#settings`; Back then returns to the
   * previous hash, and the `popstate` handler closes the settings again.
   */
  method OpenSettingsThenBack(history: BrowserHistory, state: AppState, width: int, now: int)
    returns (after: AppState)
    requires history.Valid() && !state.isSettingsOpen && history.Hash() != SettingsHash
    modifies history
    ensures history.Valid() && history.Hash() == old(history.Hash()) && history.index == old(history.index)
    ensures after == state
  {
    var withSettings := Reduce(state, ToggleSettings, now);
    history.Apply(HashSync(withSettings, width, history.Hash()));
    history.Back();
    BackClosesSettings(withSettings, width, history.Hash(), now);
    after := ReduceAll(withSettings, PopState(withSettings, width, history.Hash()), now);
  }
}
