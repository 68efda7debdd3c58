/**
 * The in-memory store the provider holds (src/context/AppContext.tsx): the
 * messages, the channels and the notification settings, and the operations
 * that replace them.  Each operation is a pure transform on the records,
 * stated first as a function; the class `AppState` holds the provider's
 * state and its methods apply those transforms.
 */
module Store {
  import opened Wrappers
  import opened Types
  import opened Seqs

  // ----- messages -----

  /** `m => m.id === id` */
  function WithId(id: string): Message -> bool {
    (m: Message) => m.id == id
  }

  function SetStatus(s: MessageStatus): Message -> Message {
    (m: Message) => m.(status := s)
  }

  function SetStarred(b: bool): Message -> Message {
    (m: Message) => m.(isStarred := b)
  }

  /**
   * Every message with id `id` gets status `s`; nothing else changes.  This is the
   * `map` that markMessageAsRead, archiveMessage and replyToMessage apply.
   */
  function SetStatusWhere(ms: seq<Message>, id: string, s: MessageStatus): (r: seq<Message>)
    ensures |r| == |ms|
    ensures forall i | 0 <= i < |ms| && ms[i].id == id :: r[i] == ms[i].(status := s)
    ensures forall i | 0 <= i < |ms| && ms[i].id != id :: r[i] == ms[i]
  {
    MapWhere(ms, WithId(id), SetStatus(s))
  }

  /** markMessageAsRead: status becomes `read` whatever it was, `replied` and `archived` included. */
  function MarkRead(ms: seq<Message>, id: string): (r: seq<Message>)
    ensures |r| == |ms|
    ensures forall i | 0 <= i < |ms| && ms[i].id == id :: r[i].status == Read && r[i] == ms[i].(status := Read)
    ensures forall i | 0 <= i < |ms| && ms[i].id != id :: r[i] == ms[i]
  {
    SetStatusWhere(ms, id, Read)
  }

  /** archiveMessage: only the status of the matching messages changes, to `archived`. */
  function ArchiveMessage(ms: seq<Message>, id: string): (r: seq<Message>)
    ensures |r| == |ms|
    ensures forall i | 0 <= i < |ms| && ms[i].id == id :: r[i].status == Archived && r[i] == ms[i].(status := Archived)
    ensures forall i | 0 <= i < |ms| && ms[i].id != id :: r[i] == ms[i]
  {
    SetStatusWhere(ms, id, Archived)
  }

  /** starMessage: only the `isStarred` flag of the matching messages changes. */
  function StarMessage(ms: seq<Message>, id: string, b: bool): (r: seq<Message>)
    ensures |r| == |ms|
    ensures forall i | 0 <= i < |ms| && ms[i].id == id :: r[i].isStarred == b && r[i] == ms[i].(isStarred := b)
    ensures forall i | 0 <= i < |ms| && ms[i].id != id :: r[i] == ms[i]
  {
    MapWhere(ms, WithId(id), SetStarred(b))
  }

  /** Setting a status twice is setting it once, so marking as read is idempotent. */
  lemma SetStatusIdempotent(ms: seq<Message>, id: string, s: MessageStatus)
    ensures SetStatusWhere(SetStatusWhere(ms, id, s), id, s) == SetStatusWhere(ms, id, s)
  {
    var once := SetStatusWhere(ms, id, s);
    var twice := SetStatusWhere(once, id, s);
    forall i | 0 <= i < |ms| ensures twice[i] == once[i] {
      assert once[i].id == ms[i].id;
    }
  }

  /** Toggling a star twice, as handleToggleStar does from the current value, restores the messages. */
  lemma StarTwiceRestores(ms: seq<Message>, id: string, b: bool)
    requires forall m | m in ms && m.id == id :: m.isStarred == b
    ensures StarMessage(StarMessage(ms, id, !b), id, b) == ms
  {
    var once := StarMessage(ms, id, !b);
    var twice := StarMessage(once, id, b);
    forall i | 0 <= i < |ms| ensures twice[i] == ms[i] {
      assert ms[i] in ms;
      assert once[i].id == ms[i].id;
    }
  }

  predicate IsUnread(m: Message) {
    m.status == Unread
  }

  /** The provider's `unreadCount`: the number of messages whose status is `unread`. */
  /** `unreadCount`: zero exactly when no message is unread. */
  function UnreadCount(ms: seq<Message>): (r: nat)
    ensures r == 0 <==> forall m | m in ms :: m.status != Unread
  {
    FilterEmptyIff(IsUnread, ms);
    |Filter(IsUnread, ms)|
  }

  function UnreadWithId(id: string): Message -> bool {
    (m: Message) => m.id == id && m.status == Unread
  }

  /**
   * Setting a status other than `unread` on `id` lowers the unread count by exactly
   * the number of unread messages with that id.
   */
  lemma {:induction false} SetStatusUnreadCount(ms: seq<Message>, id: string, s: MessageStatus)
    requires s != Unread
    ensures UnreadCount(SetStatusWhere(ms, id, s)) == UnreadCount(ms) - |Filter(UnreadWithId(id), ms)|
    decreases |ms|
  {
    if ms != [] {
      var r := SetStatusWhere(ms, id, s);
      assert r == [r[0]] + r[1..];
      assert r[1..] == SetStatusWhere(ms[1..], id, s) by {
        var t := SetStatusWhere(ms[1..], id, s);
        forall i | 0 <= i < |ms| - 1 ensures r[1..][i] == t[i] {
          assert ms[1..][i] == ms[i + 1];
        }
      }
      SetStatusUnreadCount(ms[1..], id, s);
      FilterConcat(IsUnread, [r[0]], r[1..]);
      assert Filter(IsUnread, [r[0]]) == (if IsUnread(r[0]) then [r[0]] else []) + Filter(IsUnread, []);
    }
  }

  /** Marking as read never raises the unread count, and clears every unread message with that id. */
  lemma MarkReadSpec(ms: seq<Message>, id: string)
    ensures UnreadCount(MarkRead(ms, id)) == UnreadCount(ms) - |Filter(UnreadWithId(id), ms)|
    ensures UnreadCount(MarkRead(ms, id)) <= UnreadCount(ms)
    ensures MarkRead(MarkRead(ms, id), id) == MarkRead(ms, id)
    ensures forall m | m in MarkRead(ms, id) && m.id == id :: m.status == Read
  {
    SetStatusUnreadCount(ms, id, Read);
    SetStatusIdempotent(ms, id, Read);
    var r := MarkRead(ms, id);
    forall m | m in r && m.id == id ensures m.status == Read {
      var i :| 0 <= i < |r| && r[i] == m;
      assert r[i].id == ms[i].id;
    }
  }

  /** A reply always has a thread: a message whose parent id is set has its thread id set too. */
  predicate WellThreaded(m: Message) {
    Present(m.parentId) ==> Present(m.threadId)
  }

  /** `user?.id || "user-1"` */
  function UserIdOrDefault(user: Option<UserProfile>): string {
    if user.Some? && user.value.id != "" then user.value.id else "user-1"
  }

  /** `user?.name || "Alex Johnson"` */
  function UserNameOrDefault(user: Option<UserProfile>): string {
    if user.Some? && user.value.name != "" then user.value.name else "Alex Johnson"
  }

  /** `user?.avatar` */
  function UserAvatar(user: Option<UserProfile>): Option<string> {
    if user.Some? then Some(user.value.avatar) else None
  }

  /**
   * The reply replyToMessage builds for `parent`.  Its thread is the parent's thread
   * when that is set (and non-empty), else the parent itself.
   */
  function NewReply(parent: Message, parentId: string, content: string, newId: string, now: int,
                    user: Option<UserProfile>): (r: Message)
    ensures Present(parent.threadId) ==> r.threadId == parent.threadId
    ensures !Present(parent.threadId) ==> r.threadId == Some(parent.id)
    ensures r.parentId == Some(parentId) && r.channelId == parent.channelId
  {
    Message(
      id := newId,
      channelId := parent.channelId,
      channelType := parent.channelType,
      senderId := UserIdOrDefault(user),
      senderName := UserNameOrDefault(user),
      senderAvatar := UserAvatar(user),
      content := content,
      attachments := None,
      timestamp := now,
      status := Read,
      isStarred := false,
      threadId := Some(OrElse(parent.threadId, parent.id)),
      parentId := Some(parentId))
  }

  /**
   * replyToMessage: when no message has id `id`, nothing changes.  Otherwise the first
   * such message is the parent; every message with that id becomes `replied` and one
   * reply is appended at the end.
   */
  function ReplyTo(ms: seq<Message>, id: string, content: string, newId: string, now: int,
                   user: Option<UserProfile>): (r: seq<Message>)
    ensures Find(ms, WithId(id)).None? ==> r == ms
    ensures Find(ms, WithId(id)).Some? ==>
      var parent := Find(ms, WithId(id)).value;
      && parent in ms && parent.id == id
      && |r| == |ms| + 1
      && (forall i | 0 <= i < |ms| && ms[i].id == id :: r[i] == ms[i].(status := Replied))
      && (forall i | 0 <= i < |ms| && ms[i].id != id :: r[i] == ms[i])
      && r[|ms|].id == newId && r[|ms|].content == content && r[|ms|].timestamp == now
      && r[|ms|].threadId == Some(if Present(parent.threadId) then parent.threadId.value else parent.id)
      && r[|ms|].parentId == Some(id)
      && r[|ms|].status == Read && !r[|ms|].isStarred
      && r[|ms|].channelId == parent.channelId && r[|ms|].channelType == parent.channelType
      && r[|ms|].senderId == UserIdOrDefault(user) && r[|ms|].senderName == UserNameOrDefault(user)
      && r[|ms|].senderAvatar == UserAvatar(user) && r[|ms|].attachments.None?
  {
    match Find(ms, WithId(id))
    case None => ms
    case Some(parent) => SetStatusWhere(ms, id, Replied) + [NewReply(parent, id, content, newId, now, user)]
  }

  /** Replying keeps every message well threaded: the new reply's thread id is set whenever its parent id is. */
  lemma ReplyKeepsWellThreaded(ms: seq<Message>, id: string, content: string, newId: string, now: int,
                               user: Option<UserProfile>)
    requires forall m | m in ms :: WellThreaded(m)
    ensures forall m | m in ReplyTo(ms, id, content, newId, now, user) :: WellThreaded(m)
  {
    var r := ReplyTo(ms, id, content, newId, now, user);
    forall m | m in r ensures WellThreaded(m) {
      var i :| 0 <= i < |r| && r[i] == m;
      if i < |ms| {
        assert ms[i] in ms;
      }
    }
  }

  /** Replying lowers the unread count by the number of unread messages with the parent's id (the reply itself is read). */
  lemma ReplyUnreadCount(ms: seq<Message>, id: string, content: string, newId: string, now: int,
                         user: Option<UserProfile>)
    ensures UnreadCount(ReplyTo(ms, id, content, newId, now, user)) == UnreadCount(ms) - |Filter(UnreadWithId(id), ms)|
  {
    match Find(ms, WithId(id))
    case None =>
      assert forall m | m in ms :: !WithId(id)(m);
      FilterNone(UnreadWithId(id), ms);
    case Some(parent) =>
      var reply := NewReply(parent, id, content, newId, now, user);
      SetStatusUnreadCount(ms, id, Replied);
      FilterConcat(IsUnread, SetStatusWhere(ms, id, Replied), [reply]);
      assert Filter(IsUnread, [reply]) == [] + Filter(IsUnread, []);
  }

  // ----- channels -----

  function ChannelWithId(id: string): ChannelConnection -> bool {
    (c: ChannelConnection) => c.id == id
  }

  function ChannelWithoutId(id: string): ChannelConnection -> bool {
    (c: ChannelConnection) => c.id != id
  }

  function SetDisconnected(): ChannelConnection -> ChannelConnection {
    (c: ChannelConnection) => c.(isConnected := false)
  }

  predicate IsConnected(c: ChannelConnection) {
    c.isConnected
  }

  /** The connected channels, in order (SidebarNav's and NotificationsPage's `connectedChannels`, MessagesPage's `activeChannels`). */
  function ConnectedChannels(chs: seq<ChannelConnection>): (r: seq<ChannelConnection>)
    ensures IsSubsequence(r, chs)
    ensures forall c :: c in r <==> c in chs && c.isConnected
  {
    FilterIsSubsequence(IsConnected, chs);
    Filter(IsConnected, chs)
  }

  /** The avatar connectChannel gives a new channel. */
  function LogoPath(t: ChannelType): string {
    "/logos/" + ChannelTypeName(t) + ".svg"
  }

  /**
   * connectChannel: appends one channel of type `t` named `name`, connected, with the
   * type's logo as avatar; the existing channels are kept as they were.
   */
  function Connect(chs: seq<ChannelConnection>, t: ChannelType, name: string, newId: string, userId: string,
                   now: int): (r: seq<ChannelConnection>)
    ensures |r| == |chs| + 1 && r[..|chs|] == chs
    ensures r[|chs|].channelType == t && r[|chs|].name == name && r[|chs|].isConnected
    ensures r[|chs|].id == newId && r[|chs|].userId == userId
    ensures r[|chs|].avatar == Some("/logos/" + ChannelTypeName(t) + ".svg")
  {
    chs + [ChannelConnection(newId, userId, t, name, true, Some(LogoPath(t)), now, Some(now))]
  }

  /** disconnectChannel: only the channels with id `id` change, and only their `isConnected`, to false. */
  function Disconnect(chs: seq<ChannelConnection>, id: string): (r: seq<ChannelConnection>)
    ensures |r| == |chs|
    ensures forall i | 0 <= i < |chs| && chs[i].id == id :: r[i] == chs[i].(isConnected := false)
    ensures forall i | 0 <= i < |chs| && chs[i].id != id :: r[i] == chs[i]
  {
    MapWhere(chs, ChannelWithId(id), SetDisconnected())
  }

  /** Disconnecting an id no channel has changes nothing. */
  lemma DisconnectUnknown(chs: seq<ChannelConnection>, id: string)
    requires forall c | c in chs :: c.id != id
    ensures Disconnect(chs, id) == chs
  {
    MapWhereNoHit(chs, ChannelWithId(id), SetDisconnected());
  }

  /** Connecting adds the new channel at the end of the connected list. */
  lemma ConnectAddsConnected(chs: seq<ChannelConnection>, t: ChannelType, name: string, newId: string,
                             userId: string, now: int)
    ensures var r := Connect(chs, t, name, newId, userId, now);
      ConnectedChannels(r) == ConnectedChannels(chs) + [r[|chs|]]
  {
    var r := Connect(chs, t, name, newId, userId, now);
    assert r == chs + [r[|chs|]];
    FilterConcat(IsConnected, chs, [r[|chs|]]);
    assert Filter(IsConnected, [r[|chs|]]) == [r[|chs|]] + Filter(IsConnected, []);
  }

  /** Disconnecting removes exactly the channels with that id from the connected list, keeping the order of the rest. */
  lemma {:induction false} DisconnectRemovesFromConnected(chs: seq<ChannelConnection>, id: string)
    ensures ConnectedChannels(Disconnect(chs, id)) == Filter(ChannelWithoutId(id), ConnectedChannels(chs))
    decreases |chs|
  {
    if chs != [] {
      var r := Disconnect(chs, id);
      assert r == [r[0]] + r[1..];
      assert r[1..] == Disconnect(chs[1..], id) by {
        var t := Disconnect(chs[1..], id);
        forall i | 0 <= i < |chs| - 1 ensures r[1..][i] == t[i] {
          assert chs[1..][i] == chs[i + 1];
        }
      }
      DisconnectRemovesFromConnected(chs[1..], id);
      FilterConcat(IsConnected, [r[0]], r[1..]);
      assert Filter(IsConnected, [r[0]]) == (if IsConnected(r[0]) then [r[0]] else []) + Filter(IsConnected, []);
      var kept := Filter(IsConnected, chs[1..]);
      if IsConnected(chs[0]) {
        assert ConnectedChannels(chs) == [chs[0]] + kept;
        FilterConcat(ChannelWithoutId(id), [chs[0]], kept);
        assert Filter(ChannelWithoutId(id), [chs[0]]) ==
          (if ChannelWithoutId(id)(chs[0]) then [chs[0]] else []) + Filter(ChannelWithoutId(id), []);
      } else {
        assert ConnectedChannels(chs) == kept;
      }
    }
  }

  // ----- notification settings -----

  /** `Partial<NotificationSettings>`: None for a field the caller does not supply. */
  datatype SettingsPatch = SettingsPatch(
    userId: Option<string>,
    enablePush: Option<bool>,
    enableEmail: Option<bool>,
    enableSound: Option<bool>,
    mutedChannels: Option<seq<string>>)

  const EmptyPatch := SettingsPatch(None, None, None, None, None)

  /** `{ ...settings, ...patch }`: each supplied field overrides, every other is kept. */
  function Merge(s: NotificationSettings, p: SettingsPatch): (r: NotificationSettings)
    ensures p.userId.Some? ==> r.userId == p.userId.value
    ensures p.userId.None? ==> r.userId == s.userId
    ensures p.enablePush.Some? ==> r.enablePush == p.enablePush.value
    ensures p.enablePush.None? ==> r.enablePush == s.enablePush
    ensures p.enableEmail.Some? ==> r.enableEmail == p.enableEmail.value
    ensures p.enableEmail.None? ==> r.enableEmail == s.enableEmail
    ensures p.enableSound.Some? ==> r.enableSound == p.enableSound.value
    ensures p.enableSound.None? ==> r.enableSound == s.enableSound
    ensures p.mutedChannels.Some? ==> r.mutedChannels == p.mutedChannels.value
    ensures p.mutedChannels.None? ==> r.mutedChannels == s.mutedChannels
  {
    NotificationSettings(
      p.userId.GetOr(s.userId),
      p.enablePush.GetOr(s.enablePush),
      p.enableEmail.GetOr(s.enableEmail),
      p.enableSound.GetOr(s.enableSound),
      p.mutedChannels.GetOr(s.mutedChannels))
  }

  /** updateNotificationSettings: nothing happens while the settings are null; otherwise the patch is merged in. */
  function UpdateSettings(current: Option<NotificationSettings>, p: SettingsPatch): (r: Option<NotificationSettings>)
    ensures current.None? ==> r.None?
    ensures current.Some? ==> r == Some(Merge(current.value, p))
  {
    if current.None? then None else Some(Merge(current.value, p))
  }

  /** Merging nothing changes nothing, and merging the same patch twice is merging it once. */
  lemma MergeLaws(s: NotificationSettings, p: SettingsPatch)
    ensures Merge(s, EmptyPatch) == s
    ensures Merge(Merge(s, p), p) == Merge(s, p)
  {
  }

  // ----- the provider -----

  /** What a successful login or the initial load installs (the fixture data of the source). */
  datatype Session = Session(
    user: UserProfile,
    channels: seq<ChannelConnection>,
    messages: seq<Message>,
    settings: NotificationSettings)

  /** The mock login accepts any non-empty email and password. */
  predicate LoginAccepts(email: string, password: string) {
    email != "" && password != ""
  }

  /** The mock signup accepts any non-empty name, email and password. */
  predicate SignupAccepts(name: string, email: string, password: string) {
    name != "" && email != "" && password != ""
  }

  /** The settings signup installs for a new user: every switch on, nothing muted. */
  function FreshSettings(userId: string): NotificationSettings {
    NotificationSettings(userId, true, true, true, [])
  }

  /** The provider's state. The simulated network delays are taken as immediate. */
  class AppState {
    var user: Option<UserProfile>
    var isLoading: bool
    var isAuthenticated: bool
    var channels: seq<ChannelConnection>
    var messages: seq<Message>
    var notificationSettings: Option<NotificationSettings>
    var currentChannel: Option<string>

    /** A user is signed in exactly when there is a profile, and then there are settings too. */
    ghost predicate Valid()
      reads this
    {
      && (isAuthenticated <==> user.Some?)
      && (user.Some? <==> notificationSettings.Some?)
    }

    /** The provider before the initial load: nobody signed in, loading. */
    constructor ()
      ensures Valid()
      ensures user.None? && isLoading && !isAuthenticated
      ensures channels == [] && messages == [] && notificationSettings.None? && currentChannel.None?
    {
      user := None;
      isLoading := true;
      isAuthenticated := false;
      channels := [];
      messages := [];
      notificationSettings := None;
      currentChannel := None;
    }

    /** The initial load: installs the session and signs in. */
    method Load(seed: Session)
      modifies this
      ensures Valid()
      ensures user == Some(seed.user) && isAuthenticated && !isLoading
      ensures channels == seed.channels && messages == seed.messages
      ensures notificationSettings == Some(seed.settings)
      ensures currentChannel == old(currentChannel)
    {
      user := Some(seed.user);
      channels := seed.channels;
      messages := seed.messages;
      notificationSettings := Some(seed.settings);
      isLoading := false;
      isAuthenticated := true;
    }

    method SetCurrentChannel(c: Option<string>)
      modifies this`currentChannel
      ensures currentChannel == c
    {
      currentChannel := c;
    }

    method ConnectChannel(t: ChannelType, name: string, newId: string, now: int)
      requires Valid()
      modifies this`channels
      ensures Valid()
      ensures channels == Connect(old(channels), t, name, newId, UserIdOrDefault(user), now)
    {
      channels := Connect(channels, t, name, newId, UserIdOrDefault(user), now);
    }

    method DisconnectChannel(id: string)
      requires Valid()
      modifies this`channels
      ensures Valid()
      ensures channels == Disconnect(old(channels), id)
    {
      channels := Disconnect(channels, id);
    }

    method MarkMessageAsRead(id: string)
      requires Valid()
      modifies this`messages
      ensures Valid()
      ensures messages == MarkRead(old(messages), id)
    {
      messages := MarkRead(messages, id);
    }

    method ReplyToMessage(id: string, content: string, newId: string, now: int)
      requires Valid()
      modifies this`messages
      ensures Valid()
      ensures messages == ReplyTo(old(messages), id, content, newId, now, user)
    {
      messages := ReplyTo(messages, id, content, newId, now, user);
    }

    method UpdateNotificationSettings(p: SettingsPatch)
      requires Valid()
      modifies this`notificationSettings
      ensures Valid()
      ensures notificationSettings == UpdateSettings(old(notificationSettings), p)
    {
      if notificationSettings.None? {
        return;
      }
      notificationSettings := Some(Merge(notificationSettings.value, p));
    }

    method Star(id: string, b: bool)
      requires Valid()
      modifies this`messages
      ensures Valid()
      ensures messages == StarMessage(old(messages), id, b)
    {
      messages := StarMessage(messages, id, b);
    }

    method Archive(id: string)
      requires Valid()
      modifies this`messages
      ensures Valid()
      ensures messages == ArchiveMessage(old(messages), id)
    {
      messages := ArchiveMessage(messages, id);
    }

    /** login: succeeds exactly for a non-empty email and password, and then installs the session. */
    method Login(email: string, password: string, seed: Session) returns (ok: bool)
      requires Valid()
      modifies this
      ensures Valid() && !isLoading
      ensures ok == LoginAccepts(email, password)
      ensures ok ==> isAuthenticated && user == Some(seed.user) && channels == seed.channels
                     && messages == seed.messages && notificationSettings == Some(seed.settings)
      ensures !ok ==> isAuthenticated == old(isAuthenticated) && user == old(user) && channels == old(channels)
                      && messages == old(messages) && notificationSettings == old(notificationSettings)
      ensures currentChannel == old(currentChannel)
    {
      isLoading := true;
      if email != "" && password != "" {
        isAuthenticated := true;
        user := Some(seed.user);
        channels := seed.channels;
        messages := seed.messages;
        notificationSettings := Some(seed.settings);
        isLoading := false;
        ok := true;
      } else {
        isLoading := false;
        ok := false;
      }
    }

    /**
     * signup: succeeds exactly for a non-empty name, email and password; then the
     * new user (the fixture profile with the given name and email) starts with no
     * channels, no messages and fresh settings.
     */
    method Signup(name: string, email: string, password: string, profile: UserProfile) returns (ok: bool)
      requires Valid()
      modifies this
      ensures Valid() && !isLoading
      ensures ok == SignupAccepts(name, email, password)
      ensures ok ==> isAuthenticated && user == Some(profile.(name := name, email := email))
                     && channels == [] && messages == []
                     && notificationSettings == Some(FreshSettings(profile.id))
      ensures !ok ==> isAuthenticated == old(isAuthenticated) && user == old(user) && channels == old(channels)
                      && messages == old(messages) && notificationSettings == old(notificationSettings)
      ensures currentChannel == old(currentChannel)
    {
      isLoading := true;
      if name != "" && email != "" && password != "" {
        var newUser := profile.(name := name, email := email);
        isAuthenticated := true;
        user := Some(newUser);
        channels := [];
        messages := [];
        notificationSettings := Some(FreshSettings(newUser.id));
        isLoading := false;
        ok := true;
      } else {
        isLoading := false;
        ok := false;
      }
    }

    /** logout: clears the user, the channels, the messages and the settings. */
    method Logout()
      modifies this
      ensures Valid()
      ensures user.None? && !isAuthenticated && channels == [] && messages == [] && notificationSettings.None?
      ensures isLoading == old(isLoading) && currentChannel == old(currentChannel)
    {
      user := None;
      isAuthenticated := false;
      channels := [];
      messages := [];
      notificationSettings := None;
    }
  }
}
