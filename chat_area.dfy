/**
 * The chat view's send pipeline. `handleSend` runs in two halves around
 * its `await streamChat(...)`: the first half chooses and dispatches the
 * actions that record the user's message and either answer at once
 * (offline notice, settings prompt) or add an empty assistant placeholder
 * and start a stream; the second half dispatches one content update per
 * streamed prefix and, on failure, an error text. The view also keeps
 * the abort controller of the running generation.
 */
module ChatArea {
  import opened Wrappers
  import opened Types
  import opened Text
  import opened Store
  import Llm

  /** A picked `File`: its name and its MIME type (`file.type`). */
  datatype PickedFile = PickedFile(name: string, mimeType: string)

  /**
   * The uuids one send draws, in the order it draws them: the user
   * message, one per attachment, then the reply (the offline notice or the
   * assistant placeholder, never both).
   */
  datatype SendIds = SendIds(user: string, attachments: seq<string>, reply: string)

  const OfflineNotice: string :=
    "\U{26A0}\U{FE0F} **You are offline.** Your message is saved, but AI cannot reply until you are connected."

  const UnknownError: string := "Unknown error occurred"

  /** The attachment record for a picked file; the file's bytes are not read (`data` stays empty). */
  function AttachmentFor(file: PickedFile, id: string): (attachment: Attachment)
    ensures attachment.kind == Image <==> StartsWith(file.mimeType, "image")
    ensures attachment.data == ""
    ensures attachment.id == id && attachment.name == file.name && attachment.mimeType == file.mimeType
  {
    Attachment(id, if StartsWith(file.mimeType, "image") then Image else File, file.name, "", file.mimeType)
  }

  function AttachmentsFor(files: seq<PickedFile>, ids: seq<string>): (attachments: seq<Attachment>)
    requires |ids| == |files|
    ensures |attachments| == |files|
    ensures forall k :: 0 <= k < |files| ==> attachments[k] == AttachmentFor(files[k], ids[k])
  {
    seq(|files|, k requires 0 <= k < |files| => AttachmentFor(files[k], ids[k]))
  }

  /** The message recording what the user sent. */
  function UserMessage(content: string, files: seq<PickedFile>, ids: SendIds, now: int): Message
    requires |ids.attachments| == |files|
  {
    Message(ids.user, User, content, now, None, Some(AttachmentsFor(files, ids.attachments)))
  }

  function OfflineMessage(ids: SendIds, now: int): Message
  {
    Message(ids.reply, Assistant, OfflineNotice, now, Some("system"), None)
  }

  /** The empty assistant message the streamed text is written into. */
  function Placeholder(ids: SendIds, config: ModelConfig, now: int): Message
  {
    Message(ids.reply, Assistant, "", now, Some(config.modelId), None)
  }

  /** `messages.slice(-10)`: the last ten messages, or all of them when there are fewer. */
  function History(messages: seq<Message>): (recent: seq<Message>)
    ensures |recent| == if |messages| < 10 then |messages| else 10
    ensures recent == messages[|messages| - |recent|..]
  {
    if |messages| <= 10 then messages else messages[|messages| - 10..]
  }

  /** `apiKeys[defaultModelConfig.provider]` is truthy. */
  predicate HasApiKey(state: AppState)
  {
    HasKey(state.apiKeys, state.defaultModelConfig.provider)
  }

  /** What the view asks `streamChat` for: which message to write into, and the call's arguments. */
  datatype StreamRequest = StreamRequest(
    sessionId: string,
    replyId: string,
    messages: seq<Message>,
    config: ModelConfig,
    apiKey: string)

  /** The first half of a send: the actions dispatched before the `await`, and the stream, if one starts. */
  datatype SendStart = SendStart(actions: seq<Action>, stream: Option<StreamRequest>)

  function StartSend(state: AppState, online: bool, content: string, files: seq<PickedFile>, ids: SendIds, now: int): SendStart
    requires |ids.attachments| == |files|
  {
    if !Truthy(state.currentSessionId) then SendStart([], None)
    else
      var id := state.currentSessionId.value;
      match FindSession(state.sessions, id)
      case None => SendStart([], None)
      case Some(session) =>
        var user := UserMessage(content, files, ids, now);
        if !online then
          SendStart([AddMessage(id, user), AddMessage(id, OfflineMessage(ids, now))], None)
        else if !HasApiKey(state) then
          SendStart([AddMessage(id, user), ToggleSettings], None)
        else
          var key := state.apiKeys[state.defaultModelConfig.provider];
          SendStart([AddMessage(id, user), AddMessage(id, Placeholder(ids, state.defaultModelConfig, now))],
                    Some(StreamRequest(id, ids.reply, History(session.messages) + [user], state.defaultModelConfig, key)))
  }

  /** The placeholder's text after a failure: the error's message, or a fixed text when it has none. */
  function ErrorContent(error: Error): string
  {
    "**Error**: " + (if error.message != "" then error.message else UnknownError)
  }

  function UpdateActions(sessionId: string, messageId: string, updates: seq<string>): (actions: seq<Action>)
    ensures |actions| == |updates|
    ensures forall k :: 0 <= k < |updates| ==> actions[k] == UpdateMessage(sessionId, messageId, updates[k])
  {
    seq(|updates|, k requires 0 <= k < |updates| => UpdateMessage(sessionId, messageId, updates[k]))
  }

  /**
   * The second half: one UPDATE_MESSAGE per `onToken` call, then, when the
   * stream failed with anything but an `AbortError`, the error text.
   */
  function FinishActions(request: StreamRequest, outcome: Llm.StreamOutcome): seq<Action>
  {
    UpdateActions(request.sessionId, request.replyId, outcome.updates)
      + (if outcome.result.Failure? && outcome.result.error.name != "AbortError"
         then [UpdateMessage(request.sessionId, request.replyId, ErrorContent(outcome.result.error))]
         else [])
  }

  // ------------------------------------------------------------ lemmas

  /** Without a current session that exists, a send dispatches nothing and streams nothing. */
  lemma NoSessionNoDispatch(state: AppState, online: bool, content: string, files: seq<PickedFile>, ids: SendIds, now: int)
    requires |ids.attachments| == |files|
    requires CurrentSession(state).None?
    ensures StartSend(state, online, content, files, ids, now) == SendStart([], None)
  {
  }

  /**
   * With a current session, the first action records the user's message,
   * unchanged and with one attachment record per file, an image exactly
   * when the file's MIME type starts with "image".
   */
  lemma UserMessageFirst(state: AppState, online: bool, content: string, files: seq<PickedFile>, ids: SendIds, now: int)
    requires |ids.attachments| == |files|
    requires CurrentSession(state).Some?
    ensures var start := StartSend(state, online, content, files, ids, now);
      && |start.actions| == 2
      && start.actions[0].AddMessage?
      && start.actions[0].sessionId == state.currentSessionId.value
      && var user := start.actions[0].message;
      && user.role == User && user.content == content && user.id == ids.user
      && user.attachments.Some? && |user.attachments.value| == |files|
      && (forall k :: 0 <= k < |files| ==>
            && (user.attachments.value[k].kind == Image <==> StartsWith(files[k].mimeType, "image"))
            && user.attachments.value[k].data == ""
            && user.attachments.value[k].name == files[k].name)
  {
  }

  /** Offline: the user's message and the offline notice are the only actions, and no stream starts. */
  lemma OfflineAnswersAtOnce(state: AppState, content: string, files: seq<PickedFile>, ids: SendIds, now: int)
    requires |ids.attachments| == |files|
    requires CurrentSession(state).Some?
    ensures var start := StartSend(state, false, content, files, ids, now);
      && start.stream.None?
      && start.actions == [AddMessage(state.currentSessionId.value, UserMessage(content, files, ids, now)),
                           AddMessage(state.currentSessionId.value, OfflineMessage(ids, now))]
  {
  }

  /** Offline, the current session grows by exactly two messages: the user's and the notice. */
  lemma OfflineSessionGrowsByTwo(state: AppState, content: string, files: seq<PickedFile>, ids: SendIds, now: int)
    requires |ids.attachments| == |files|
    requires CurrentSession(state).Some?
    ensures var after := ReduceAll(state, StartSend(state, false, content, files, ids, now).actions, now);
      && |after.sessions| == |state.sessions|
      && forall k :: 0 <= k < |state.sessions| && state.sessions[k].id == state.currentSessionId.value ==>
           after.sessions[k].messages
             == state.sessions[k].messages + [UserMessage(content, files, ids, now), OfflineMessage(ids, now)]
  {
    var id := state.currentSessionId.value;
    var user := UserMessage(content, files, ids, now);
    var notice := OfflineMessage(ids, now);
    var actions := [AddMessage(id, user), AddMessage(id, notice)];
    var first := Reduce(state, actions[0], now);
    var second := Reduce(first, actions[1], now);
    ReduceTwo(state, actions[0], actions[1], now);
    forall k | 0 <= k < |state.sessions| && state.sessions[k].id == id
      ensures second.sessions[k].messages == state.sessions[k].messages + [user, notice]
    {
      assert first.sessions[k].messages == state.sessions[k].messages + [user];
      assert first.sessions[k].id == id;
    }
  }

  /**
   * Online without a key for the default provider: the user's message, then
   * TOGGLE_SETTINGS, which flips the settings panel (opening it when it was
   * closed, closing it when it was already open).
   */
  lemma MissingKeyOpensSettings(state: AppState, content: string, files: seq<PickedFile>, ids: SendIds, now: int)
    requires |ids.attachments| == |files|
    requires CurrentSession(state).Some? && !HasApiKey(state)
    ensures var start := StartSend(state, true, content, files, ids, now);
      && start.stream.None?
      && start.actions == [AddMessage(state.currentSessionId.value, UserMessage(content, files, ids, now)), ToggleSettings]
      && ReduceAll(state, start.actions, now).isSettingsOpen == !state.isSettingsOpen
  {
    var add := AddMessage(state.currentSessionId.value, UserMessage(content, files, ids, now));
    ReduceTwo(state, add, ToggleSettings, now);
  }

  /**
   * Online with a key: an empty assistant placeholder labelled with the
   * default model follows the user's message, and the stream is asked, with
   * the default model configuration and its provider's key, for the last
   * (at most ten) earlier messages followed by the user's.
   */
  lemma StreamStartsWithPlaceholder(state: AppState, content: string, files: seq<PickedFile>, ids: SendIds, now: int)
    requires |ids.attachments| == |files|
    requires CurrentSession(state).Some? && HasApiKey(state)
    ensures var start := StartSend(state, true, content, files, ids, now);
      var before := CurrentSession(state).value.messages;
      && start.stream.Some?
      && start.actions[1] == AddMessage(state.currentSessionId.value, Placeholder(ids, state.defaultModelConfig, now))
      && start.actions[1].message.content == ""
      && start.actions[1].message.model == Some(state.defaultModelConfig.modelId)
      && start.stream.value.replyId == start.actions[1].message.id
      && start.stream.value.sessionId == state.currentSessionId.value
      && start.stream.value.messages == before[|before| - |History(before)|..] + [UserMessage(content, files, ids, now)]
      && |start.stream.value.messages| <= 11
      && start.stream.value.config == state.defaultModelConfig
      && start.stream.value.apiKey == state.apiKeys[state.defaultModelConfig.provider]
  {
  }

  /** Every action of the second half writes into the placeholder, and an `AbortError` adds nothing to the updates. */
  lemma FinishTargetsPlaceholder(request: StreamRequest, outcome: Llm.StreamOutcome)
    ensures forall a :: a in FinishActions(request, outcome) ==>
      a.UpdateMessage? && a.sessionId == request.sessionId && a.messageId == request.replyId
    ensures outcome.result.Success? || outcome.result.error.name == "AbortError" ==>
      FinishActions(request, outcome) == UpdateActions(request.sessionId, request.replyId, outcome.updates)
    ensures outcome.result.Failure? && outcome.result.error.name != "AbortError" ==>
      |FinishActions(request, outcome)| == |outcome.updates| + 1 &&
      FinishActions(request, outcome)[|outcome.updates|].content
        == "**Error**: " + (if outcome.result.error.message != "" then outcome.result.error.message else UnknownError)
  {
  }

  /** A later UPDATE_MESSAGE of the same message overrides an earlier one. */
  lemma {:induction false} UpdateOverrides(state: AppState, id: string, messageId: string, first: string, second: string, now: int)
    ensures Reduce(Reduce(state, UpdateMessage(id, messageId, first), now), UpdateMessage(id, messageId, second), now)
         == Reduce(state, UpdateMessage(id, messageId, second), now)
  {
    var once := EditMessage(state.sessions, id, messageId, first);
    var twice := EditMessage(once, id, messageId, second);
    var direct := EditMessage(state.sessions, id, messageId, second);
    forall k | 0 <= k < |state.sessions|
      ensures twice[k] == direct[k]
    {
      if state.sessions[k].id == id {
        var m := state.sessions[k].messages;
        assert ReplaceContent(ReplaceContent(m, messageId, first), messageId, second) == ReplaceContent(m, messageId, second);
      }
    }
    assert twice == direct;
  }

  /** A run of updates to one message leaves what the last one wrote. */
  lemma {:induction false} UpdatesLeaveLast(state: AppState, id: string, messageId: string, updates: seq<string>, now: int)
    requires updates != []
    ensures ReduceAll(state, UpdateActions(id, messageId, updates), now)
         == Reduce(state, UpdateMessage(id, messageId, updates[|updates| - 1]), now)
    decreases |updates|
  {
    var actions := UpdateActions(id, messageId, updates);
    var next := Reduce(state, actions[0], now);
    assert actions[1..] == UpdateActions(id, messageId, updates[1..]);
    if |updates| == 1 {
      assert actions[1..] == [];
    } else {
      UpdatesLeaveLast(next, id, messageId, updates[1..], now);
      UpdateOverrides(state, id, messageId, updates[0], updates[|updates| - 1], now);
    }
  }

  /**
   * A stream that delivered text, with no error, leaves the current
   * session holding the user's message and then the placeholder with the
   * last streamed text, provided the reply id is new to the session.
   */
  lemma StreamedReplyLands(state: AppState, content: string, files: seq<PickedFile>, ids: SendIds, now: int,
                           outcome: Llm.StreamOutcome)
    requires |ids.attachments| == |files|
    requires CurrentSession(state).Some? && HasApiKey(state)
    requires ids.reply != ids.user
    requires forall k, j :: 0 <= k < |state.sessions| && 0 <= j < |state.sessions[k].messages| ==>
      state.sessions[k].messages[j].id != ids.reply
    requires outcome.result.Success? && outcome.updates != []
    ensures var start := StartSend(state, true, content, files, ids, now);
      var after := ReduceAll(ReduceAll(state, start.actions, now), FinishActions(start.stream.value, outcome), now);
      && |after.sessions| == |state.sessions|
      && forall k :: 0 <= k < |state.sessions| && state.sessions[k].id == state.currentSessionId.value ==>
           after.sessions[k].messages == state.sessions[k].messages
             + [UserMessage(content, files, ids, now),
                Placeholder(ids, state.defaultModelConfig, now).(content := outcome.updates[|outcome.updates| - 1])]
  {
    var id := state.currentSessionId.value;
    var start := StartSend(state, true, content, files, ids, now);
    var user := UserMessage(content, files, ids, now);
    var holder := Placeholder(ids, state.defaultModelConfig, now);
    assert start.actions == [AddMessage(id, user), AddMessage(id, holder)];
    assert FinishActions(start.stream.value, outcome) == UpdateActions(id, holder.id, outcome.updates);
    ReplyLandsAfterDispatch(state, id, user, holder, outcome.updates, now);
  }

  /** Adding the user's message and the placeholder, then streaming into it, leaves the last update in the placeholder. */
  lemma ReplyLandsAfterDispatch(state: AppState, id: string, user: Message, holder: Message,
                                updates: seq<string>, now: int)
    requires user.id != holder.id && updates != []
    requires forall k, j :: 0 <= k < |state.sessions| && 0 <= j < |state.sessions[k].messages| ==>
      state.sessions[k].messages[j].id != holder.id
    ensures var after := ReduceAll(ReduceAll(state, [AddMessage(id, user), AddMessage(id, holder)], now),
                                   UpdateActions(id, holder.id, updates), now);
      && |after.sessions| == |state.sessions|
      && forall k :: 0 <= k < |state.sessions| && state.sessions[k].id == id ==>
           after.sessions[k].messages == state.sessions[k].messages + [user, holder.(content := updates[|updates| - 1])]
  {
    var last := updates[|updates| - 1];
    var first := Reduce(state, AddMessage(id, user), now);
    var second := Reduce(first, AddMessage(id, holder), now);
    ReduceTwo(state, AddMessage(id, user), AddMessage(id, holder), now);
    UpdatesLeaveLast(second, id, holder.id, updates, now);
    var after := Reduce(second, UpdateMessage(id, holder.id, last), now);
    forall k | 0 <= k < |state.sessions| && state.sessions[k].id == id
      ensures after.sessions[k].messages == state.sessions[k].messages + [user, holder.(content := last)]
    {
      var before := state.sessions[k].messages;
      assert first.sessions[k].id == id;
      var grown := second.sessions[k].messages;
      assert grown == before + [user, holder];
      assert after.sessions[k].messages == ReplaceContent(grown, holder.id, last);
      ReplyReplacesPlaceholder(before, user, holder, last);
    }
  }

  /** Only the placeholder carries the reply id, so updating that id rewrites the placeholder alone. */
  lemma ReplyReplacesPlaceholder(before: seq<Message>, user: Message, holder: Message, text: string)
    requires user.id != holder.id
    requires forall j :: 0 <= j < |before| ==> before[j].id != holder.id
    ensures ReplaceContent(before + [user, holder], holder.id, text) == before + [user, holder.(content := text)]
  {
    var grown := before + [user, holder];
    var edited := ReplaceContent(grown, holder.id, text);
    forall j | 0 <= j < |edited|
      ensures edited[j] == (before + [user, holder.(content := text)])[j]
    {
      if j < |before| {
        assert grown[j] == before[j];
      }
    }
  }

  // --------------------------------------------------- the chat view

  /**
   * The view's mutable parts: the store state it dispatches into, the
   * abort controller reference, the `isGenerating` flag (which also
   * disables the input), and, for the proofs, which controllers have been
   * created and which aborted. Controllers are numbered in creation order.
   */
  class ChatView {
    var app: AppState
    var controller: Option<nat>
    var isGenerating: bool
    var created: nat
    var aborted: set<nat>

    ghost predicate Valid()
      reads this
    {
      && (isGenerating <==> controller.Some?)
      && (controller.Some? ==> controller.value < created && controller.value !in aborted)
      && (forall c :: c in aborted ==> c < created)
    }

    constructor (app: AppState)
      ensures Valid() && this.app == app
      ensures controller.None? && !isGenerating && created == 0 && aborted == {}
    {
      this.app := app;
      controller := None;
      isGenerating := false;
      created := 0;
      aborted := {};
    }

    /** `dispatch` of each action in turn. */
    method DispatchAll(actions: seq<Action>, now: int)
      modifies this`app
      ensures app == ReduceAll(old(app), actions, now)
    {
      var i := 0;
      while i < |actions|
        invariant 0 <= i <= |actions|
        invariant ReduceAll(old(app), actions, now) == ReduceAll(app, actions[i..], now)
      {
        assert actions[i..][1..] == actions[i + 1..];
        app := Reduce(app, actions[i], now);
        i := i + 1;
      }
      assert actions[i..] == [];
    }

    /** `stopGeneration`: aborts and forgets the running controller, if any. */
    method StopGeneration()
      requires Valid()
      modifies this
      ensures Valid() && app == old(app) && created == old(created)
      ensures controller.None? && !isGenerating
      ensures aborted == if old(controller).Some? then old(aborted) + {old(controller).value} else old(aborted)
    {
      if controller.Some? {
        aborted := aborted + {controller.value};
        controller := None;
        isGenerating := false;
      }
    }

    /**
     * The first half of `handleSend`: dispatches the chosen actions and,
     * when a stream starts, aborts the previous controller and installs a
     * new one, which it returns.
     */
    method BeginSend(online: bool, content: string, files: seq<PickedFile>, ids: SendIds, now: int)
      returns (request: Option<StreamRequest>, own: Option<nat>)
      requires Valid() && |ids.attachments| == |files|
      modifies this
      ensures Valid()
      ensures var start := StartSend(old(app), online, content, files, ids, now);
        && request == start.stream
        && app == ReduceAll(old(app), start.actions, now)
      ensures request.None? ==>
        own.None? && controller == old(controller) && aborted == old(aborted) && created == old(created)
      ensures request.Some? ==>
        && own == Some(old(created)) && controller == own && isGenerating
        && created == old(created) + 1
        && aborted == (if old(controller).Some? then old(aborted) + {old(controller).value} else old(aborted))
    {
      var start := StartSend(app, online, content, files, ids, now);
      DispatchAll(start.actions, now);
      assert Valid();
      request := start.stream;
      own := None;
      if request.Some? {
        var installed := InstallController();
        own := Some(installed);
      }
    }

    /** Aborts the previous controller, if any, and makes a new one the running generation's. */
    method InstallController() returns (own: nat)
      requires Valid()
      modifies this`controller, this`aborted, this`created, this`isGenerating
      ensures Valid()
      ensures own == old(created) && controller == Some(own) && isGenerating
      ensures created == old(created) + 1
      ensures aborted == if old(controller).Some? then old(aborted) + {old(controller).value} else old(aborted)
    {
      if controller.Some? {
        aborted := aborted + {controller.value};
      }
      own := created;
      controller := Some(own);
      created := created + 1;
      isGenerating := true;
    }

    /**
     * The second half of `handleSend`, once `streamChat` has settled:
     * dispatches the updates and the error text, then clears the controller
     * reference only if it still holds this send's controller.
     */
    method FinishSend(request: StreamRequest, own: nat, outcome: Llm.StreamOutcome, now: int)
      requires Valid()
      modifies this
      ensures Valid()
      ensures app == ReduceAll(old(app), FinishActions(request, outcome), now)
      ensures created == old(created) && aborted == old(aborted)
      ensures old(controller) == Some(own) ==> controller.None? && !isGenerating
      ensures old(controller) != Some(own) ==> controller == old(controller) && isGenerating == old(isGenerating)
    {
      DispatchAll(FinishActions(request, outcome), now);
      if controller == Some(own) {
        controller := None;
        isGenerating := false;
      }
    }
  }
}
