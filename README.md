# unichatt message hub — a Dafny model

This project models the client-side core of unichatt ("Channel Nexus"), a React
front end that gathers messages from several chat and mail channels into one inbox.

The core is the in-memory store of `src/context/AppContext.tsx`. It holds the messages, the connected
channels and the notification settings, and changes them through a few operations:

- mark as read, reply, star, archive;
- connect and disconnect a channel;
- a partial settings update;
- login, signup and logout.

The store is `Store.AppState`, a class with `seq` and `Option` fields. Each of its
methods is specified by a pure function on the old state (`Store.MarkRead`,
`Store.ReplyTo`, `Store.Connect`, `Store.Merge`, …), and the properties are proved
about those functions.

On top of the store sit the read-time views:

- the message list's filters, its split into root messages and per-thread reply buckets (a loop over a map), and the two sorts (an insertion sort on an `array`);
- the messages page's status → channel → search chain and its URL parameter;
- the notification page's mute toggle and switches;
- the dashboard counters and the per-channel-type tally (a loop over a map);
- the sidebar's initials, logos and highlighted item;
- the help page's FAQ search;
- the support tickets page;
- the login/registration and connect-a-channel forms.

A page whose handlers change state step by step is a class whose methods call the store's methods.

Modules:

- `Wrappers` (Option);
- `Types` (the records of `src/types/index.ts`);
- `Seqs` (`filter`, `find`, `map`-where and a map sum, with their laws);
- `Text` (ASCII case mapping, `includes`, `trim`, `split`/`join`);
- `Store`, `MessageList`, `MessagesPage`, `NotificationsPage`, `DashboardStats`, `SidebarNav`, `HelpPage`, `TicketsPage`, `AuthForm` and `ChannelConnect`, one per source file.

Conventions:

- Timestamps are integers (milliseconds). The source parses ISO strings with `new Date`.
- Ids made from `Date.now()` and the current time are parameters (`newId`, `now`).
- The simulated delays are taken as immediate.
- The mock session that login installs is a `Store.Session` parameter.
- JavaScript truthiness of an optional string is `Types.Present` (set and non-empty).
- A record field read by a name the type does not declare reads `undefined` (`Types.MessageStringField` and friends). This is how the components that read snake_case names are modelled as written.
- The channel record's `type` field is called `channelType` in Dafny (`type` is a keyword).

## Model

| member | source | states |
|---|---|---|
| Types.ParseChannelType | src/types/index.ts:12-18 | a string parses to a channel type only if that type's name is the string |
| Types.ChannelTypeClosed | src/types/index.ts:12-18 | the channel types are exactly six distinct values |
| Types.ChannelTypeNameRoundTrip | src/types/index.ts:12-18 | every type's name parses back to that type, and different types have different names |
| Types.StatusNameInjective | src/types/index.ts:31 | a message status is one of unread, read, replied, archived, and different statuses have different names |
| Types.OrElse | src/types/index.ts:45-46 | `a \|\| b` on an optional id: the first value when it is set and non-empty, else the second |
| Types.SnakeCaseFieldsAreUndefined | src/types/index.ts:20-47 | `is_starred`, `channel_id` and `is_connected` read `undefined`; the declared names `isStarred`, `channelId`, `isConnected` and `type` read the field |
| Seqs.Filter | src/context/AppContext.tsx:57 | `Array.filter`: never longer than the input, and an element is kept exactly when it is in the input and passes |
| Seqs.Find | src/context/AppContext.tsx:103 | `Array.find`: nothing exactly when no element passes; otherwise an element of the input that passes and has no passing element before it |
| Seqs.MapWhere | src/context/AppContext.tsx:94-96 | the `map` with a conditional: same length, matching elements transformed, all others unchanged |
| Text.Lower | src/pages/MessagesPage.tsx:60 | `toLowerCase` (ASCII): same length, each character mapped |
| Text.LowerKeepsContains | src/pages/HelpPage.tsx:47-50 | a substring stays a substring after lower-casing both strings |
| Text.TrimEmptyIffBlank | src/components/MessageList.tsx:111 | `trim()` gives the empty string exactly when the string is all whitespace |
| Text.Split | src/components/SidebarNav.tsx:57 | `split(' ')`: one part more than there are separators, and no part holds the separator |
| Text.JoinSplit | src/components/SidebarNav.tsx:57 | joining the parts of a split with the separator gives back the string |
| Text.SplitJoin | src/components/SidebarNav.tsx:57 | splitting separator-free parts joined by the separator gives back the parts |
| Store.SetStatusWhere | src/context/AppContext.tsx:123-125 | only the messages with the id change, and only their status; the length is kept |
| Store.MarkRead | src/context/AppContext.tsx:93-98 | the matching message becomes read whatever its status was; every other message and the length are unchanged |
| Store.MarkReadSpec | src/context/AppContext.tsx:93-98 | marking as read is idempotent, leaves every matching message read, and lowers the unread count by the number of unread messages with that id |
| Store.SetStatusIdempotent | src/context/AppContext.tsx:94-96 | setting a status twice equals setting it once |
| Store.ArchiveMessage | src/context/AppContext.tsx:158-162 | only the matching messages change, and only their status, to archived |
| Store.StarMessage | src/context/AppContext.tsx:150-155 | only the matching messages change, and only their star flag, to the given value |
| Store.StarTwiceRestores | src/components/MessageList.tsx:119-121 | starring with the negated current flag and then with the flag restores the messages exactly |
| Store.UnreadCount | src/context/AppContext.tsx:57 | the unread count is zero exactly when no message is unread |
| Store.SetStatusUnreadCount | src/context/AppContext.tsx:57 | after any non-unread status update, `unreadCount` drops by exactly the unread messages with that id |
| Store.NewReply | src/context/AppContext.tsx:107-120 | the reply joins its parent's thread when the parent has one, and otherwise starts the thread rooted at the parent; it names the parent and sits in the parent's channel |
| Store.ReplyTo | src/context/AppContext.tsx:101-128 | unknown id: nothing changes; otherwise the first message with that id is the parent, it and every other message with that id become replied, every other message and the order are kept, and one reply is appended: the new id, the content and the time; the parent's thread (or the parent's id when that is unset or empty) and the parent id; read and unstarred; the parent's channel and type; the user's id and name with the defaults "user-1" and "Alex Johnson", the user's avatar, and no attachments |
| Store.ReplyKeepsWellThreaded | src/context/AppContext.tsx:118-119 | if every message with a parent has a thread, so does every message after a reply |
| Store.ReplyUnreadCount | src/context/AppContext.tsx:123-128 | a reply lowers the unread count by the unread messages with the parent's id (the reply itself is read) |
| Store.ConnectedChannels | src/pages/MessagesPage.tsx:69 | the connected channels are a subsequence of the channels, holding exactly those with `isConnected` (also `connectedChannels` of the notifications page and of the sidebar as intended) |
| Store.Connect | src/context/AppContext.tsx:60-72 | one channel is appended with the new id, the user's id, the given type and name, connected, with avatar `/logos/<type>.svg`; the existing channels are unchanged |
| Store.Disconnect | src/context/AppContext.tsx:80-84 | only the channels with the id change, and only to disconnected; the length is kept |
| Store.DisconnectUnknown | src/context/AppContext.tsx:80-84 | disconnecting an id no channel has changes nothing |
| Store.ConnectAddsConnected | src/context/AppContext.tsx:60-72 | after a connect, the connected list is the old one plus the new channel |
| Store.DisconnectRemovesFromConnected | src/context/AppContext.tsx:80-84 | after a disconnect, the connected list is the old one without the channels of that id |
| Store.Merge | src/context/AppContext.tsx:140 | `{...settings, ...patch}`: each supplied field takes the patch's value, each other field keeps its value |
| Store.UpdateSettings | src/context/AppContext.tsx:137-141 | no settings: nothing changes; otherwise the merge |
| Store.MergeLaws | src/context/AppContext.tsx:140 | the empty patch changes nothing, and applying the same patch twice equals applying it once |
| Store.AppState.constructor | src/context/AppContext.tsx:32-38 | nobody signed in, loading, no channels, messages, settings or current channel |
| Store.AppState.Load | src/context/AppContext.tsx:42-54 | the initial load installs the session, stops loading and signs in |
| Store.AppState.SetCurrentChannel | src/context/AppContext.tsx:37 | sets the current channel |
| Store.AppState.ConnectChannel | src/context/AppContext.tsx:60-72 | replaces the channels by `Connect` with the user's id or "user-1" |
| Store.AppState.DisconnectChannel | src/context/AppContext.tsx:80-84 | replaces the channels by `Disconnect` |
| Store.AppState.MarkMessageAsRead | src/context/AppContext.tsx:93-98 | replaces the messages by `MarkRead` |
| Store.AppState.ReplyToMessage | src/context/AppContext.tsx:101-128 | replaces the messages by `ReplyTo` with the signed-in user |
| Store.AppState.UpdateNotificationSettings | src/context/AppContext.tsx:137-141 | replaces the settings by `UpdateSettings`, keeping the store's invariant |
| Store.AppState.Star | src/context/AppContext.tsx:150-155 | replaces the messages by `StarMessage` |
| Store.AppState.Archive | src/context/AppContext.tsx:158-162 | replaces the messages by `ArchiveMessage` |
| Store.AppState.Login | src/context/AppContext.tsx:171-202 | succeeds exactly for a non-empty email and password and then installs the session; a refusal changes nothing but the loading flag, which ends false |
| Store.AppState.Signup | src/context/AppContext.tsx:205-247 | succeeds exactly for a non-empty name, email and password; it then signs in a profile with that name and email, no channels, no messages, and every switch on with nothing muted; a refusal changes nothing |
| Store.AppState.Logout | src/context/AppContext.tsx:250-255 | clears the user, channels, messages and settings and signs out |
| MessageList.ListFilter | src/components/MessageList.tsx:49-63 | the channel-then-kind filter is one filter, its result is a subsequence, and a message is in it exactly when it is in the input, in the given channel (if any), and starred, archived or unread as the filter says |
| MessageList.OtherFilterKeepsAll | src/components/MessageList.tsx:57-63 | any filter value other than starred, archived and unread filters nothing beyond the channel |
| MessageList.ListFilterIdempotent | src/components/MessageList.tsx:49-63 | filtering the filtered list again changes nothing |
| MessageList.GroupThreads | src/components/MessageList.tsx:66-83 | the roots are the non-replies in input order; each key's bucket holds exactly the replies of that thread, in order, and is non-empty; no other key has replies; roots and buckets together count every message once |
| MessageList.PlacedOnce | src/components/MessageList.tsx:70-82 | a message is a root exactly when it is not a reply (a parent without a thread included), and it is in bucket k exactly when it is a reply of thread k |
| MessageList.SortByKey | src/components/MessageList.tsx:86-88 | the array ends sorted by the key and a permutation of what it held |
| MessageList.NewestFirstMeansNonIncreasing | src/components/MessageList.tsx:86-88 | sorted by the negated timestamp means timestamps never increase along the list |
| MessageList.BuildView | src/components/MessageList.tsx:49-133 | the roots are a permutation of the filtered non-replies, newest first; each bucket is a non-empty permutation of its thread's filtered replies, oldest first; a key without replies has no bucket |
| MessageList.ViewThreadsWellFormed | src/components/MessageList.tsx:66-83 | every built bucket is non-empty and holds only replies of its own thread |
| MessageList.RenderingRules | src/components/MessageList.tsx:283-334 | a reply is shown only under a root with the same thread id; a bucket whose key no root has is never shown; a root shows either its thread or the reply button, never both |
| MessageList.MockThreadIsFlat | src/data/mockData.ts:161-200 | the mock thread msg-8/msg-9/msg-10 gives one root, msg-8, and the bucket thread-1 holding msg-9 then msg-10 |
| MessageList.ReplyLandsInParentThread | src/context/AppContext.tsx:107-128 | a reply is a reply by the grouping rule and lands at the end of its parent's thread bucket (the parent's thread, or its id); every other bucket keeps its members |
| MessageList.ToggleThread | src/components/MessageList.tsx:96-101 | flips the open flag of that thread and no other |
| MessageList.IsOpen | src/components/MessageList.tsx:285 | a thread with no entry in the open flags reads as closed (a missing entry is undefined, and the source falls back to false) |
| MessageList.ToggleThreadTwice | src/components/MessageList.tsx:96-101 | toggling a thread twice restores every open flag |
| MessageList.ListState.constructor | src/components/MessageList.tsx:44-46 | empty draft, no reply target, no open threads |
| MessageList.ListState.SetReplyText | src/components/MessageList.tsx:255 | the textarea sets the draft |
| MessageList.ListState.HandleReply | src/components/MessageList.tsx:104-107 | starts a reply to the message with an empty draft |
| MessageList.ListState.CancelReply | src/components/MessageList.tsx:262-265 | closes the reply box |
| MessageList.ListState.HandleSendReply | src/components/MessageList.tsx:110-116 | a blank draft changes nothing; otherwise the untrimmed draft is sent as the reply through `ReplyTo` and the reply box is cleared; only the store's messages may change, and the open threads are kept |
| MessageList.ListState.HandleToggleThread | src/components/MessageList.tsx:96-101 | the open flags become `ToggleThread` of the old ones |
| MessageList.ListState.HandleToggleStar | src/components/MessageList.tsx:119-121 | stars the message with the negation of the shown flag |
| MessageList.ListState.HandleMessageClick | src/components/MessageList.tsx:91-93 | marks the message as read |
| MessageList.ListState.HandleArchive | src/components/MessageList.tsx:124-126 | archives the message |
| MessagesPage.UrlFilter | src/pages/MessagesPage.tsx:25 | a missing or empty `filter` parameter means "all"; otherwise the parameter |
| MessagesPage.UrlParam | src/pages/MessagesPage.tsx:33-36 | the parameter is written exactly when the filter is not "all" |
| MessagesPage.UrlRoundTrip | src/pages/MessagesPage.tsx:25-36 | writing a non-empty filter to the URL and reading it back gives the filter; an empty one reads back as "all" |
| MessagesPage.PageFilter | src/pages/MessagesPage.tsx:42-66 | the chain only drops messages: the result is no longer than the inbox and holds only inbox messages |
| MessagesPage.PageFilterSpec | src/pages/MessagesPage.tsx:42-66 | the chain is one filter and a subsequence; a message is shown exactly when it has the selected status, is in the selected channel and, for a non-empty term, its lower-cased content or sender name contains the lower-cased term |
| MessagesPage.PageHitMeans | src/pages/MessagesPage.tsx:42-66 | one message passes the page's combined test exactly when it has the selected status (unread, starred or archived; any other filter value passes everything), is in the selected channel unless that is "all", and matches a non-empty search term |
| MessagesPage.NoFilterShowsAll | src/pages/MessagesPage.tsx:42-66 | filter "all", channel "all" and no term show every message |
| MessagesPage.ListRefilterIsIdentity | src/pages/MessagesPage.tsx:127-131 | the list's own filters, given the page's props, keep everything the page shows |
| NotificationsPage.ToggleMute | src/pages/NotificationsPage.tsx:32-34 | the toggled id is muted afterwards exactly when it was not before; every other id keeps its membership |
| NotificationsPage.ToggleMuteSpec | src/pages/NotificationsPage.tsx:32-34 | the ids other than the toggled one keep their order |
| NotificationsPage.ToggleMuteTwice | src/pages/NotificationsPage.tsx:32-34 | muting and then unmuting an id that was not muted restores the list exactly |
| NotificationsPage.OneFieldUpdates | src/pages/NotificationsPage.tsx:36-56 | each handler's patch changes exactly its one field of the stored settings |
| NotificationsPage.InitialLocal | src/pages/NotificationsPage.tsx:22-25 | the local copy starts from the stored values, or all off and nothing muted without settings |
| NotificationsPage.PageState.constructor | src/pages/NotificationsPage.tsx:22-25 | the page starts from `InitialLocal` |
| NotificationsPage.PageState.ToggleChannelMute | src/pages/NotificationsPage.tsx:31-38 | the toggled list becomes the local list and the store's only updated field |
| NotificationsPage.PageState.HandlePushToggle | src/pages/NotificationsPage.tsx:41-44 | sets push locally and in the store, nothing else |
| NotificationsPage.PageState.HandleEmailToggle | src/pages/NotificationsPage.tsx:47-50 | sets email locally and in the store, nothing else |
| NotificationsPage.PageState.HandleSoundToggle | src/pages/NotificationsPage.tsx:53-56 | sets sound locally and in the store, nothing else |
| DashboardStats.StarredMessages | src/components/DashboardStats.tsx:39 | the starred counter (on the typed flag) is zero exactly when no message is starred |
| DashboardStats.ArchivedMessages | src/components/DashboardStats.tsx:40 | the archived counter is zero exactly when no message is archived |
| DashboardStats.StarAndStatusOrthogonal | src/types/index.ts:43-44 | the star flag and the status are separate fields, so starring a message never changes the unread or archived count, and marking as read or archiving never changes the starred count |
| DashboardStats.CounterBounds | src/components/DashboardStats.tsx:37-40 | the unread, starred and archived counts are each at most the total, and unread plus archived is at most the total |
| DashboardStats.StarredMessagesAsWritten | src/components/DashboardStats.tsx:39 | as written, the starred counter is zero for every inbox |
| DashboardStats.StarredCounterexample | src/components/DashboardStats.tsx:39 | one starred message: the intended count is 1, the count as written is 0 |
| DashboardStats.TallyOfSpec | src/components/DashboardStats.tsx:43-52 | the fold's tally counts each type's messages exactly, its key order lists each key once, and its counts add up to the messages whose channel exists |
| DashboardStats.TallyByChannelType | src/components/DashboardStats.tsx:43-52 | a type is a key exactly when some message's channel has it; each key counts exactly those messages (so at least 1); the counts add up to the messages with an existing channel, at most all of them; the key order lists each key once |
| DashboardStats.ChannelOfAsWritten | src/components/DashboardStats.tsx:45 | as written, no message finds its channel |
| DashboardStats.TallyCounterexample | src/components/DashboardStats.tsx:45 | a message of an existing Slack channel: counted once for Slack as intended, matched to no channel as written |
| DashboardStats.DistributionData | src/components/DashboardStats.tsx:55-58 | one bar per key, in key order, named by the type and valued by its count |
| DashboardStats.DistributionOnePerKey | src/components/DashboardStats.tsx:55-58 | the chart has exactly as many bars as the tally has keys, one per key with its count, with distinct names |
| DashboardStats.BarColor | src/components/DashboardStats.tsx:179 | the bar's colour is always one of the six colours, the index taken modulo six, so the colours repeat every six bars |
| DashboardStats.TallyKeysAtMostSix | src/components/DashboardStats.tsx:43-52 | the tally has at most one key per channel type, so at most six keys |
| DashboardStats.DistributionColorsDistinct | src/components/DashboardStats.tsx:55-72 | the chart has at most six bars, one per channel type, and since the six palette colours differ, no two of its bars share a colour |
| SidebarNav.ConnectedChannelsAsWritten | src/components/SidebarNav.tsx:55 | as written, the sidebar lists no channel whatever the channels |
| SidebarNav.ConnectedCounterexample | src/components/SidebarNav.tsx:55 | one connected channel: listed as intended, not listed as written |
| SidebarNav.FirstChars | src/components/SidebarNav.tsx:57 | at most one character per part |
| SidebarNav.GetInitials | src/components/SidebarNav.tsx:56-58 | the initials have at most one letter per space-separated part |
| SidebarNav.InitialsSpec | src/components/SidebarNav.tsx:56-58 | one initial per non-empty space-separated part, so no more than the parts; no initial is a space |
| SidebarNav.InitialsOfWords | src/components/SidebarNav.tsx:56-58 | non-empty words joined by single spaces give the upper-cased first letter of each word, in order ("Alex Johnson" gives "AJ") |
| SidebarNav.GetChannelIcon | src/components/SidebarNav.tsx:337-347 | a key of the logo map gets its logo (no logo is the empty string, so the placeholder fallback never hides one); any other string gets `/placeholder.svg` |
| SidebarNav.ChannelIconOfType | src/components/SidebarNav.tsx:337-346 | every channel type gets `/logos/<type>.svg`, the avatar connectChannel stores |
| SidebarNav.PlaceholderIffNoType | src/components/SidebarNav.tsx:337-346 | exactly the strings that name no channel type get `/placeholder.svg` |
| SidebarNav.IsActive | src/components/SidebarNav.tsx:108 | with no current channel no item is highlighted |
| SidebarNav.AtMostOneActive | src/components/SidebarNav.tsx:108 | with distinct ids at most one item is highlighted, and a highlighted item is the current channel |
| HelpPage.FilterFaqs | src/pages/HelpPage.tsx:47-50 | the result is a subsequence, and an FAQ is in it exactly when the lower-cased term occurs in its lower-cased question or answer |
| HelpPage.EmptyTermKeepsAll | src/pages/HelpPage.tsx:47-50 | an empty term keeps every FAQ |
| HelpPage.LongerTermNarrows | src/pages/HelpPage.tsx:47-50 | when term t occurs in t′, the results for t′ are the results for t filtered again, a subsequence and a subset of them |
| HelpPage.View | src/pages/HelpPage.tsx:75-85 | the "No matches" note appears exactly when nothing matches and names the term; otherwise the matching entries |
| HelpPage.NoMatchesIffNothingContainsTerm | src/pages/HelpPage.tsx:75-85 | the note appears exactly when no FAQ contains the term in its question or answer |
| HelpPage.EmptyTermShowsEntries | src/pages/HelpPage.tsx:75-85 | with any FAQ at all, an empty search shows every entry |
| TicketsPage.CanSubmit | src/pages/TicketsPage.tsx:84 | a ticket can be submitted exactly when neither title nor description is all whitespace |
| TicketsPage.RowFor | src/pages/TicketsPage.tsx:98-104 | the row sent carries the user's id, the untrimmed title and description, the chosen priority and status open |
| TicketsPage.Stored | src/pages/TicketsPage.tsx:106-110 | the ticket the insert returns carries the row's fields with the server's id and time |
| TicketsPage.TabTickets | src/pages/TicketsPage.tsx:272-279 | the "all" tab shows every ticket; a status tab exactly the tickets with that status |
| TicketsPage.TabsPartition | src/pages/TicketsPage.tsx:268-279 | the three status tabs together hold every ticket exactly as often as "all" does |
| TicketsPage.StatusBadge | src/pages/TicketsPage.tsx:130-141 | no badge exactly for strings outside open, in_progress and resolved |
| TicketsPage.PriorityBadge | src/pages/TicketsPage.tsx:143-154 | no badge exactly for strings outside low, medium and high |
| TicketsPage.EveryTicketHasBadges | src/pages/TicketsPage.tsx:130-154 | every stored ticket gets both badges, and different statuses get different badges |
| TicketsPage.RenderTickets | src/pages/TicketsPage.tsx:284-315 | the spinner exactly while the first load has no tickets; the cards exactly when the tab has tickets otherwise |
| TicketsPage.EmptyStateChoice | src/pages/TicketsPage.tsx:299-301 | outside the first load, "haven't created any" (with the create button) exactly when there are no tickets, "no tickets match" exactly when there are tickets but none in the tab |
| TicketsPage.TicketsState.constructor | src/pages/TicketsPage.tsx:30-37 | not loading, no tickets, form hidden and empty with priority medium |
| TicketsPage.TicketsState.HandleInputChange | src/pages/TicketsPage.tsx:68-71 | the named input sets its field |
| TicketsPage.TicketsState.HandlePriorityChange | src/pages/TicketsPage.tsx:73-78 | sets the priority |
| TicketsPage.TicketsState.SetShowForm | src/pages/TicketsPage.tsx:170 | shows or hides the form |
| TicketsPage.TicketsState.HandleSubmit | src/pages/TicketsPage.tsx:80-128 | no user or a blank field: nothing sent, nothing changes; otherwise the row is sent; success prepends the stored ticket, resets the form to empty with medium and hides it; failure keeps tickets and form; loading ends false |
| TicketsPage.SubmittedTicketLeads | src/pages/TicketsPage.tsx:110 | after a success the new ticket, open and with the chosen priority, leads the list, the older tickets follow in order, and it leads the open tab too |
| AuthForm.LoginCheck | src/components/AuthForm.tsx:33-36 | "Please enter both email and password" exactly when the email or the password is empty |
| AuthForm.RegisterCheck | src/components/AuthForm.tsx:48-56 | any empty field gives "Please fill in all fields" before the mismatch check; otherwise a mismatch gives "Passwords do not match"; no error exactly when all four are filled and the passwords agree |
| AuthForm.FormCallsAlwaysSucceed | src/context/AppContext.tsx:177 | details that pass the form's checks are always accepted by the mock login and signup |
| AuthForm.FormState.constructor | src/components/AuthForm.tsx:16-27 | every field and error starts empty |
| AuthForm.FormState.HandleLogin | src/components/AuthForm.tsx:29-42 | login is called exactly when both fields are filled; otherwise the error is "Please enter both email and password" and the store is untouched; a call leaves no error, installs the session (signed in, its user, channels, messages and settings), ends loading and keeps the current channel |
| AuthForm.FormState.HandleRegister | src/components/AuthForm.tsx:44-62 | signup is called exactly when the checks pass; otherwise the first failing check's message and an untouched store; a call leaves no error, signs in the new profile with its name and email, installs no channels, no messages and fresh settings, ends loading and keeps the current channel |
| ChannelConnect.ChannelOptionsAreTheTypes | src/components/ChannelConnect.tsx:26-33 | the picker's values are the six channel type names, in the enumeration's order; every value parses and every type is offered |
| ChannelConnect.ConnectCheck | src/components/ChannelConnect.tsx:50-58 | no type gives "Please select a channel type" before the name is looked at; a type with an empty name gives "Please enter a name for this connection"; no error exactly when both are present |
| ChannelConnect.ConnectForm.constructor | src/components/ChannelConnect.tsx:42-45 | no type, empty name, not connecting, no error |
| ChannelConnect.ConnectForm.SelectType | src/components/ChannelConnect.tsx:42 | selects a type |
| ChannelConnect.ConnectForm.SetName | src/components/ChannelConnect.tsx:43 | sets the name |
| ChannelConnect.ConnectForm.HandleConnect | src/components/ChannelConnect.tsx:47-76 | a failed check leaves its message and changes nothing else; otherwise the channel is connected once with the chosen type and name, and the form is reset with no error and not connecting |

## Left out

- The OAuth popup handshake (`src/hooks/useDiscordConnect.ts`, `src/hooks/useSlackConnect.ts`, `src/pages/SlackCallback.tsx`) and the edge functions under `supabase/functions/`: asynchronous window messaging, timers and network calls, not sequential logic.
- Supabase CRUD and realtime (`src/pages/AdminPage.tsx`, `src/hooks/useAdmin.ts`, `src/utils/setupInitialAdmin.ts`, `src/hooks/useTicketSubscription.ts`, the profile update): database I/O. The tickets page's `fetchTickets` is left out for the same reason. Its insert is modelled only as failure or success; on success the server returns an id and a time.
- `src/pages/Settings.tsx`: local storage, DOM classes, audio and browser notifications, all side effects.
- Floating point and rendering: the unread percentage (`Math.round`, src/components/DashboardStats.tsx:95), the static week-activity chart data, recharts, relative and absolute date formatting, and toasts.
- Timers: the simulated delays of the store and of the connect form are taken as immediate. `isLoading` is therefore only seen at the end of login and signup, and `isConnecting` only ends false.
- Navigation: `navigate`, `onBack`, the sidebar's expand toggle, and the tab switches of the auth form.
- Copy of pure presentation: the message list's empty-state texts (src/components/MessageList.tsx:135-152), the notifications page's loading card, and the tickets page's logged-out message.
- The FAQ texts (src/pages/HelpPage.tsx:7-40): the search takes the FAQ list as a parameter.
- Store.AppState.ConnectChannel: takes a `ChannelType` where the source takes any string cast to a type; every caller in the model passes a picked type.
- MessageList.BuildView: proves the roots and buckets sorted and permutations of their specifications, not that ties keep their input order, which `Array.prototype.sort` (stable since ES2019) would keep.
- MessageList.SortByKey: the key is an integer timestamp; parsing ISO strings with `new Date` is not modelled.
- Text.Lower: ASCII case mapping only; Unicode case folding and `toUpperCase` expansions (ß to SS) are not modelled.
- DashboardStats.TallyByChannelType: the source creates a key at 0 and then increments it; the model adds 1 to the current count (0 when absent) in one step.
- TicketsPage.TicketsState.HandleInputChange: only the inputs named "title" and "description" exist; an arbitrary name, which JavaScript would add as a new key, is ignored.
- Store.AppState.Login: the mock session that login installs is a parameter; credentials are never checked against anything.
- SidebarNav.PlaceholderIffNoType, SidebarNav.GetChannelIcon, MessageList.GroupThreads, MessageList.ToggleThread, MessageList.IsOpen: the source's lookup tables are plain JavaScript objects, so a key such as "constructor", "toString" or "__proto__" reads a member inherited from `Object.prototype`; the model's maps hold only their own keys, so those lookups (an icon that is not the placeholder, a `push` onto a non-array that throws, a thread that starts open) are not modelled. No caller passes such a name.
- The "mark as read" operation follows the code: it sets read unconditionally, whatever the previous status.

## Findings

| source | as written | input that shows it | evidently intended | confidence | as-written member | corrected member |
|---|---|---|---|---|---|---|
| src/components/DashboardStats.tsx:39 | counts messages whose `is_starred` is truthy; messages have `isStarred` | one starred message: the "Starred Messages" card shows 0 | count `isStarred` | high, not executed | DashboardStats.StarredCounterexample | DashboardStats.CounterBounds |
| src/components/DashboardStats.tsx:45 | looks up each message's channel by `message.channel_id`; messages have `channelId` | a message of an existing Slack channel: the tally and the distribution chart stay empty | look up by `channelId` | high, not executed | DashboardStats.TallyCounterexample | DashboardStats.TallyByChannelType |
| src/components/SidebarNav.tsx:55 | lists channels whose `is_connected` is truthy; channels have `isConnected` | one connected channel: the sidebar says "No channels connected yet" | filter on `isConnected` | high, not executed | SidebarNav.ConnectedCounterexample | Store.ConnectedChannels |
| src/components/DashboardStats.tsx:82 | "From N connected channels" counts `is_connected` | one connected channel: the card says 0 connected channels | count `isConnected` | high, not executed | SidebarNav.ConnectedChannelsAsWritten | Store.ConnectedChannels |
