/**
 * The records the inbox works on (src/types/index.ts): channel connections,
 * messages with their attachments, notification settings and the user profile.
 * Timestamps, which the source keeps as ISO-8601 strings, are integers here
 * (milliseconds since the epoch), which is what the views compare.
 */
module Types {
  import opened Wrappers

  /** The six platforms a channel can come from. */
  datatype ChannelType = Slack | Discord | Teams | Gmail | Twitter | LinkedIn

  /** Every channel type, each once. */
  const AllChannelTypes: seq<ChannelType> := [Slack, Discord, Teams, Gmail, Twitter, LinkedIn]

  /** The string the source uses for a channel type. */
  function ChannelTypeName(t: ChannelType): string {
    match t
    case Slack => "slack"
    case Discord => "discord"
    case Teams => "teams"
    case Gmail => "gmail"
    case Twitter => "twitter"
    case LinkedIn => "linkedin"
  }

  /** The channel type a string names, if it names one. */
  function ParseChannelType(s: string): (r: Option<ChannelType>)
    ensures r.Some? ==> ChannelTypeName(r.value) == s
  {
    if s == "slack" then Some(Slack)
    else if s == "discord" then Some(Discord)
    else if s == "teams" then Some(Teams)
    else if s == "gmail" then Some(Gmail)
    else if s == "twitter" then Some(Twitter)
    else if s == "linkedin" then Some(LinkedIn)
    else None
  }

  /** The enumeration is closed: the six listed values are all there are, and they are distinct. */
  lemma ChannelTypeClosed(t: ChannelType)
    ensures t in AllChannelTypes
    ensures |AllChannelTypes| == 6
    ensures forall i, j | 0 <= i < j < 6 :: AllChannelTypes[i] != AllChannelTypes[j]
  {
  }

  /** A channel type's name parses back to that type, and distinct types have distinct names. */
  lemma ChannelTypeNameRoundTrip(t: ChannelType, u: ChannelType)
    ensures ParseChannelType(ChannelTypeName(t)) == Some(t)
    ensures ChannelTypeName(t) == ChannelTypeName(u) ==> t == u
  {
    match t
    case Slack =>
    case Discord =>
    case Teams =>
    case Gmail =>
    case Twitter =>
    case LinkedIn =>
  }

  /** The four states a message can be in. */
  datatype MessageStatus = Unread | Read | Replied | Archived

  function StatusName(s: MessageStatus): string {
    match s
    case Unread => "unread"
    case Read => "read"
    case Replied => "replied"
    case Archived => "archived"
  }

  /** Exactly the four listed strings name a status, each a different one. */
  lemma StatusNameInjective(s: MessageStatus, u: MessageStatus)
    ensures StatusName(s) in {"unread", "read", "replied", "archived"}
    ensures StatusName(s) == StatusName(u) ==> s == u
  {
  }

  /** A file attached to a message; the byte size is an integer here. */
  datatype Attachment = Attachment(id: string, name: string, mimeType: string, url: string, size: int)

  /** A connected third-party account. `isConnected` is required; the avatar and last sync are optional; `channelType` is the source's `type` field. */
  datatype ChannelConnection = ChannelConnection(
    id: string,
    userId: string,
    channelType: ChannelType,
    name: string,
    isConnected: bool,
    avatar: Option<string>,
    createdAt: int,
    lastSync: Option<int>)

  /**
   * A message. `isStarred` is a flag separate from `status`, and `threadId` and
   * `parentId` are independently optional: the type does not force a message
   * with a parent to carry a thread.
   */
  datatype Message = Message(
    id: string,
    channelId: string,
    channelType: ChannelType,
    senderId: string,
    senderName: string,
    senderAvatar: Option<string>,
    content: string,
    attachments: Option<seq<Attachment>>,
    timestamp: int,
    status: MessageStatus,
    isStarred: bool,
    threadId: Option<string>,
    parentId: Option<string>)

  /** Three independent switches and the list of muted channel ids. */
  datatype NotificationSettings = NotificationSettings(
    userId: string,
    enablePush: bool,
    enableEmail: bool,
    enableSound: bool,
    mutedChannels: seq<string>)

  datatype UserProfile = UserProfile(id: string, name: string, email: string, avatar: string, createdAt: int)

  /**
   * JavaScript truthiness of an optional string: `undefined` and `""` are both
   * falsy, so `x.threadId && ...` and `x.threadId || y` treat an empty id as missing.
   */
  predicate Present(s: Option<string>) {
    s.Some? && s.value != ""
  }

  /** `a || b` on an optional string. */
  function OrElse(s: Option<string>, fallback: string): (r: string)
    ensures Present(s) ==> r == s.value
    ensures !Present(s) ==> r == fallback
  {
    if Present(s) then s.value else fallback
  }

  /**
   * Reading a field of a message by name, as the untyped JavaScript object allows:
   * a name the record does not declare reads `undefined`.
   */
  function MessageStringField(m: Message, name: string): Option<string> {
    if name == "id" then Some(m.id)
    else if name == "channelId" then Some(m.channelId)
    else if name == "channelType" then Some(ChannelTypeName(m.channelType))
    else if name == "senderId" then Some(m.senderId)
    else if name == "senderName" then Some(m.senderName)
    else if name == "content" then Some(m.content)
    else if name == "status" then Some(StatusName(m.status))
    else None
  }

  function MessageFlagField(m: Message, name: string): Option<bool> {
    if name == "isStarred" then Some(m.isStarred) else None
  }

  function ChannelStringField(c: ChannelConnection, name: string): Option<string> {
    if name == "id" then Some(c.id)
    else if name == "userId" then Some(c.userId)
    else if name == "type" then Some(ChannelTypeName(c.channelType))
    else if name == "name" then Some(c.name)
    else None
  }

  function ChannelFlagField(c: ChannelConnection, name: string): Option<bool> {
    if name == "isConnected" then Some(c.isConnected) else None
  }

  /** The snake_case names some components read are not fields of the records: they read `undefined`. */
  lemma SnakeCaseFieldsAreUndefined(m: Message, c: ChannelConnection)
    ensures MessageFlagField(m, "is_starred").None? && MessageStringField(m, "channel_id").None?
    ensures ChannelFlagField(c, "is_connected").None?
    ensures MessageFlagField(m, "isStarred") == Some(m.isStarred) && MessageStringField(m, "channelId") == Some(m.channelId)
    ensures ChannelFlagField(c, "isConnected") == Some(c.isConnected)
    ensures ChannelStringField(c, "type") == Some(ChannelTypeName(c.channelType))
  {
  }
}
