/**
 * The entities shared by the whole client: messages, attachments, chat
 * sessions, model configurations, and the errors the core throws.
 * Identifiers and clock readings come from outside (uuid generator and
 * Date.now()) and are plain values here.
 */
module Types {
  import opened Wrappers

  datatype Role = User | Assistant | System

  /** The role as it is written on the wire ("user", "assistant", "system"). */
  function RoleName(role: Role): string
  {
    match role
    case User => "user"
    case Assistant => "assistant"
    case System => "system"
  }

  datatype AttachmentKind = Image | File

  datatype Attachment = Attachment(id: string, kind: AttachmentKind, name: string, data: string, mimeType: string)

  datatype Message = Message(
    id: string,
    role: Role,
    content: string,
    timestamp: int,
    model: Option<string>,
    attachments: Option<seq<Attachment>>)

  /**
   * The provider is kept as the free string the code passes around: the
   * declared union omits "groq", which the adapter registry accepts, and
   * names "custom", which the registry rejects.
   */
  datatype ModelConfig = ModelConfig(
    provider: string,
    modelId: string,
    temperature: Option<real>,
    apiKey: Option<string>,
    baseUrl: Option<string>)

  datatype ChatSession = ChatSession(
    id: string,
    title: string,
    messages: seq<Message>,
    createdAt: int,
    updatedAt: int,
    modelConfig: ModelConfig)

  /** The colour themes and text sizes the settings offer. */
  datatype Theme = Dark | Light | Oled | SystemTheme

  datatype TextSize = Small | Medium | Large | ExtraLarge

  /** A thrown JavaScript error: its `name` ("Error", "TypeError", "AbortError", ...) and `message`. */
  datatype Error = Error(name: string, message: string)

  /** A plain `new Error(message)`. */
  function Thrown(message: string): Error
  {
    Error("Error", message)
  }

  /** `apiKeys[providerId]` is truthy: a non-empty key is stored for that provider. */
  predicate HasKey(apiKeys: map<string, string>, providerId: string)
  {
    providerId in apiKeys && apiKeys[providerId] != ""
  }

  /** `sessions.find(s => s.id === id)`: the first session with that id, if any. */
  function FindSession(sessions: seq<ChatSession>, id: string): (found: Option<ChatSession>)
    ensures found.Some? ==> found.value in sessions && found.value.id == id
    ensures found.None? <==> forall k :: 0 <= k < |sessions| ==> sessions[k].id != id
    ensures found.Some? ==> (exists k :: 0 <= k < |sessions| && sessions[k] == found.value
                                         && (forall j :: 0 <= j < k ==> sessions[j].id != id))
  {
    if sessions == [] then None
    else if sessions[0].id == id then Some(sessions[0])
    else
      var found := FindSession(sessions[1..], id);
      assert found.Some? ==> (exists k :: 1 <= k < |sessions| && sessions[k] == found.value
                                          && (forall j :: 0 <= j < k ==> sessions[j].id != id)) by {
        if found.Some? {
          var k' :| 0 <= k' < |sessions[1..]| && sessions[1..][k'] == found.value
                    && (forall j :: 0 <= j < k' ==> sessions[1..][j].id != id);
          assert sessions[k' + 1] == found.value;
          forall j | 0 <= j < k' + 1 ensures sessions[j].id != id {
            if j > 0 { assert sessions[j] == sessions[1..][j - 1]; }
          }
        }
      }
      found
  }
}
