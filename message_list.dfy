/**
 * The message list component (src/components/MessageList.tsx): the channel and
 * kind filters, the grouping of the filtered messages into root messages and
 * per-thread reply buckets, the two sorts, what is rendered under each root,
 * and the component's own state (reply draft, open threads).
 */
module MessageList {
  import opened Wrappers
  import opened Types
  import opened Seqs
  import opened Text
  import opened Store

  // ----- filters -----

  /** The kind filter named by the `filter` prop; any other value, or none, keeps everything. */
  function KindFilter(filter: Option<string>): Message -> bool {
    if filter == Some("starred") then (m: Message) => m.isStarred
    else if filter == Some("archived") then (m: Message) => m.status == Archived
    else if filter == Some("unread") then (m: Message) => m.status == Unread
    else (m: Message) => true
  }

  /** The channel filter, applied only when `channelId` is truthy. */
  function ChannelFilter(channelId: Option<string>): Message -> bool {
    if Present(channelId) then (m: Message) => m.channelId == channelId.value
    else (m: Message) => true
  }

  /** Both filters at once: the independent, single-pass definition of what the list keeps. */
  function ListHit(channelId: Option<string>, filter: Option<string>): Message -> bool {
    (m: Message) => ChannelFilter(channelId)(m) && KindFilter(filter)(m)
  }

  /**
   * `filteredMessages`: the channel filter (when `channelId` is truthy) followed by the
   * kind filter.  The result is one filter by both conditions, so it is a subsequence
   * of the input, and a message is kept exactly when it passes both.
   */
  function ListFilter(ms: seq<Message>, channelId: Option<string>, filter: Option<string>): (r: seq<Message>)
    ensures r == Filter(ListHit(channelId, filter), ms)
    ensures IsSubsequence(r, ms)
    ensures forall m :: m in r <==>
      && m in ms
      && (Present(channelId) ==> m.channelId == channelId.value)
      && (filter == Some("starred") ==> m.isStarred)
      && (filter == Some("archived") ==> m.status == Archived)
      && (filter == Some("unread") ==> m.status == Unread)
  {
    TwoFiltersAreOne(ms, channelId, filter);
    FilterIsSubsequence(ListHit(channelId, filter), ms);
    Filter(KindFilter(filter), if Present(channelId) then Filter(ChannelFilter(channelId), ms) else ms)
  }

  lemma TwoFiltersAreOne(ms: seq<Message>, channelId: Option<string>, filter: Option<string>)
    ensures Filter(KindFilter(filter), if Present(channelId) then Filter(ChannelFilter(channelId), ms) else ms)
         == Filter(ListHit(channelId, filter), ms)
  {
    if !Present(channelId) {
      FilterKeepsAll(ChannelFilter(channelId), ms);
    }
    FilterFilter(ChannelFilter(channelId), KindFilter(filter), ListHit(channelId, filter), ms);
  }

  /** A filter value other than the three kinds keeps every message of the channel. */
  lemma OtherFilterKeepsAll(ms: seq<Message>, channelId: Option<string>, filter: Option<string>)
    requires filter !in {Some("starred"), Some("archived"), Some("unread")}
    ensures ListFilter(ms, channelId, filter) == ListFilter(ms, channelId, None)
  {
    forall x | x in ms ensures ListHit(channelId, filter)(x) == ListHit(channelId, None)(x) {
      assert KindFilter(filter)(x);
    }
    FilterCongruent(ListHit(channelId, filter), ListHit(channelId, None), ms);
  }

  /** Filtering the already filtered list again by the same props changes nothing. */
  lemma ListFilterIdempotent(ms: seq<Message>, channelId: Option<string>, filter: Option<string>)
    ensures ListFilter(ListFilter(ms, channelId, filter), channelId, filter) == ListFilter(ms, channelId, filter)
  {
    FilterIdempotent(ListHit(channelId, filter), ms);
  }

  // ----- grouping -----

  /** A reply: both `threadId` and `parentId` are truthy. */
  predicate IsReply(m: Message) {
    Present(m.threadId) && Present(m.parentId)
  }

  /** Everything else is a root, a message with a parent but no thread included. */
  predicate IsRoot(m: Message) {
    !IsReply(m)
  }

  function InThread(k: string): Message -> bool {
    (m: Message) => IsReply(m) && m.threadId.value == k
  }

  /** The replies of thread `k`, in list order. */
  function Bucket(ms: seq<Message>, k: string): seq<Message> {
    Filter(InThread(k), ms)
  }

  function BucketSize(b: seq<Message>): nat {
    |b|
  }

  /** The buckets hold, for each thread with replies among the first `n` messages, exactly those replies. */
  ghost predicate GroupedUpTo(ms: seq<Message>, n: nat, threads: map<string, seq<Message>>)
    requires n <= |ms|
  {
    && (forall k | k in threads :: threads[k] == Filter(InThread(k), ms[..n]) && threads[k] != [])
    && (forall k | k !in threads :: Filter(InThread(k), ms[..n]) == [])
  }

  /** `messageThreads[t].push(m)`, creating the bucket first when there is none. */
  function Push(threads: map<string, seq<Message>>, k: string, m: Message): map<string, seq<Message>> {
    threads[k := (if k in threads then threads[k] else []) + [m]]
  }

  /** The grouping loop's state after the first `n` messages: the roots so far, exact buckets, and every message counted once. */
  ghost predicate GroupInv(ms: seq<Message>, n: nat, roots: seq<Message>, threads: map<string, seq<Message>>)
    requires n <= |ms|
  {
    && roots == Filter(IsRoot, ms[..n])
    && GroupedUpTo(ms, n, threads)
    && |roots| + SumOf(threads, BucketSize) == n
  }

  /** One step of the grouping loop keeps the buckets exact. */
  lemma GroupBuckets(ms: seq<Message>, i: nat, threads: map<string, seq<Message>>)
    requires i < |ms| && GroupedUpTo(ms, i, threads)
    ensures IsReply(ms[i]) ==> GroupedUpTo(ms, i + 1, Push(threads, ms[i].threadId.value, ms[i]))
    ensures !IsReply(ms[i]) ==> GroupedUpTo(ms, i + 1, threads)
  {
    var m := ms[i];
    forall k ensures Filter(InThread(k), ms[..i + 1]) == Filter(InThread(k), ms[..i]) + (if InThread(k)(m) then [m] else []) {
      FilterSnoc(InThread(k), ms, i);
    }
  }

  /** One step of the grouping loop: a reply goes to its thread's bucket, anything else to the roots. */
  lemma GroupStep(ms: seq<Message>, i: nat, roots: seq<Message>, threads: map<string, seq<Message>>)
    requires i < |ms| && GroupInv(ms, i, roots, threads)
    ensures IsReply(ms[i]) ==> GroupInv(ms, i + 1, roots, Push(threads, ms[i].threadId.value, ms[i]))
    ensures !IsReply(ms[i]) ==> GroupInv(ms, i + 1, roots + [ms[i]], threads)
  {
    var m := ms[i];
    FilterSnoc(IsRoot, ms, i);
    GroupBuckets(ms, i, threads);
    if IsReply(m) {
      var k := m.threadId.value;
      SumOfUpdate(threads, BucketSize, k, (if k in threads then threads[k] else []) + [m]);
    }
  }

  /**
   * The grouping loop: the roots in list order, and for each thread with at least
   * one reply its bucket in list order.  Every message lands in exactly one place:
   * the roots and the buckets together hold as many messages as the list.
   */
  method GroupThreads(ms: seq<Message>) returns (roots: seq<Message>, threads: map<string, seq<Message>>)
    ensures roots == Filter(IsRoot, ms)
    ensures forall k | k in threads :: threads[k] == Bucket(ms, k) && threads[k] != []
    ensures forall k | k !in threads :: Bucket(ms, k) == []
    ensures |roots| + SumOf(threads, BucketSize) == |ms|
  {
    roots := [];
    threads := map[];
    var i := 0;
    while i < |ms|
      invariant 0 <= i <= |ms|
      invariant GroupInv(ms, i, roots, threads)
    {
      var m := ms[i];
      GroupStep(ms, i, roots, threads);
      if Present(m.threadId) && Present(m.parentId) {
        threads := Push(threads, m.threadId.value, m);
      } else {
        roots := roots + [m];
      }
      i := i + 1;
    }
    assert ms[..i] == ms;
  }

  /** Where a message goes: to the roots exactly when it is not a reply, else to the bucket of its own thread and no other. */
  lemma PlacedOnce(ms: seq<Message>, m: Message, k: string)
    requires m in ms
    ensures m in Filter(IsRoot, ms) <==> !IsReply(m)
    ensures m in Bucket(ms, k) <==> IsReply(m) && m.threadId == Some(k)
  {
  }

  // ----- sorting -----

  /** `s` is ordered by `key`, smallest first. */
  predicate SortedBy(s: seq<Message>, key: Message -> int) {
    forall i, j | 0 <= i < j < |s| :: key(s[i]) <= key(s[j])
  }

  /** The key of the root sort: newest first. */
  function NewestFirst(m: Message): int {
    -m.timestamp
  }

  /** The key of the bucket sort: oldest first. */
  function OldestFirst(m: Message): int {
    m.timestamp
  }

  /** Sorted newest first means the timestamps never increase along the list. */
  lemma NewestFirstMeansNonIncreasing(s: seq<Message>)
    requires SortedBy(s, NewestFirst)
    ensures forall i, j | 0 <= i < j < |s| :: s[i].timestamp >= s[j].timestamp
  {
    forall i, j | 0 <= i < j < |s| ensures s[i].timestamp >= s[j].timestamp {
      assert NewestFirst(s[i]) <= NewestFirst(s[j]);
    }
  }

  /** Exchanges two cells of `a`; the array keeps the same messages. */
  method Swap(a: array<Message>, i: int, j: int)
    requires 0 <= i < a.Length && 0 <= j < a.Length
    modifies a
    ensures a[..] == old(a[..])[i := old(a[j])][j := old(a[i])]
    ensures multiset(a[..]) == multiset(old(a[..]))
  {
    a[i], a[j] := a[j], a[i];
  }

  /** `Array.prototype.sort` with the comparator `key(a) - key(b)`, in place: the result is ordered by `key` and holds the same messages. */
  method SortByKey(a: array<Message>, key: Message -> int)
    modifies a
    ensures SortedBy(a[..], key)
    ensures multiset(a[..]) == multiset(old(a[..]))
  {
    var i := 0;
    while i < a.Length
      invariant 0 <= i <= a.Length
      invariant forall p, q | 0 <= p < q < i :: key(a[p]) <= key(a[q])
      invariant multiset(a[..]) == multiset(old(a[..]))
    {
      var j := i;
      while j > 0 && key(a[j - 1]) > key(a[j])
        invariant 0 <= j <= i
        invariant forall p, q | 0 <= p < q <= i && p != j && q != j :: key(a[p]) <= key(a[q])
        invariant forall q | j < q <= i :: key(a[j]) < key(a[q])
        invariant multiset(a[..]) == multiset(old(a[..]))
      {
        Swap(a, j - 1, j);
        j := j - 1;
      }
      i := i + 1;
    }
  }

  /** Sorts a sequence through an array, as the source sorts its arrays in place. */
  method SortSeq(s: seq<Message>, key: Message -> int) returns (r: seq<Message>)
    ensures SortedBy(r, key)
    ensures multiset(r) == multiset(s)
  {
    var a := new Message[|s|](i requires 0 <= i < |s| => s[i]);
    assert a[..] == s;
    SortByKey(a, key);
    r := a[..];
  }

  /** What the list renders: the roots, newest first, and each thread's replies, oldest first. */
  method BuildView(ms: seq<Message>, channelId: Option<string>, filter: Option<string>)
    returns (roots: seq<Message>, threads: map<string, seq<Message>>)
    ensures SortedBy(roots, NewestFirst)
    ensures multiset(roots) == multiset(Filter(IsRoot, ListFilter(ms, channelId, filter)))
    ensures forall k | k in threads ::
      && SortedBy(threads[k], OldestFirst)
      && multiset(threads[k]) == multiset(Bucket(ListFilter(ms, channelId, filter), k))
      && threads[k] != []
    ensures forall k | k !in threads :: Bucket(ListFilter(ms, channelId, filter), k) == []
  {
    var shown := ListFilter(ms, channelId, filter);
    var unsortedRoots, grouped := GroupThreads(shown);
    roots := SortSeq(unsortedRoots, NewestFirst);
    threads := grouped;
    var pending := grouped.Keys;
    while pending != {}
      invariant pending <= grouped.Keys
      invariant threads.Keys == grouped.Keys
      invariant forall k | k in grouped && k !in pending ::
        SortedBy(threads[k], OldestFirst) && multiset(threads[k]) == multiset(grouped[k])
      invariant forall k | k in pending :: threads[k] == grouped[k]
      decreases pending
    {
      var k :| k in pending;
      var sorted := SortSeq(threads[k], OldestFirst);
      threads := threads[k := sorted];
      pending := pending - {k};
    }
    forall k | k in threads ensures threads[k] != [] {
      assert k in grouped && k !in pending;
      assert grouped[k][0] in multiset(grouped[k]);
    }
  }

  // ----- rendering -----

  /** Every key is a non-empty thread all of whose messages are replies in that thread. */
  predicate WellFormedThreads(threads: map<string, seq<Message>>) {
    forall k | k in threads :: threads[k] != [] && forall m | m in threads[k] :: IsReply(m) && m.threadId == Some(k)
  }

  /** The grouping, and the view built from it, produce well formed threads. */
  lemma ViewThreadsWellFormed(ms: seq<Message>, threads: map<string, seq<Message>>)
    requires forall k | k in threads :: threads[k] != [] && multiset(threads[k]) == multiset(Bucket(ms, k))
    ensures WellFormedThreads(threads)
  {
    forall k, m | k in threads && m in threads[k] ensures IsReply(m) && m.threadId == Some(k) {
      assert m in multiset(threads[k]);
      assert m in Bucket(ms, k);
    }
  }

  /** The thread UI (line 283): the root has a thread id and a non-empty bucket. */
  predicate ShowsThread(root: Message, threads: map<string, seq<Message>>) {
    Present(root.threadId) && root.threadId.value in threads && |threads[root.threadId.value]| > 0
  }

  /** The replies shown under `root`. */
  function VisibleReplies(root: Message, threads: map<string, seq<Message>>): seq<Message> {
    if ShowsThread(root, threads) then threads[root.threadId.value] else []
  }

  /** The reply button (line 319): the root has no thread id, or no bucket. */
  predicate ShowsReplyButton(root: Message, threads: map<string, seq<Message>>) {
    !Present(root.threadId) || root.threadId.value !in threads
  }

  /**
   * A reply appears only under a root of its own thread, so a bucket whose thread has
   * no root in the list is never shown; and under each root exactly one of the thread
   * UI and the reply button appears.
   */
  lemma RenderingRules(roots: seq<Message>, threads: map<string, seq<Message>>, k: string)
    requires WellFormedThreads(threads)
    ensures forall r, m | m in VisibleReplies(r, threads) :: Present(r.threadId) && m.threadId == r.threadId
    ensures (forall r | r in roots :: r.threadId != Some(k)) ==>
      forall r, m | r in roots && m in VisibleReplies(r, threads) :: m.threadId != Some(k)
    ensures forall r :: ShowsThread(r, threads) != ShowsReplyButton(r, threads)
  {
  }

  // ----- the mock thread -----

  const Msg8 := Message("msg-8", "conn-1", Slack, "sender-8", "Alex Johnson", Some("https://i.pravatar.cc/150?img=11"),
    "I'll be out of office on Friday. Please contact Jamie for any urgent matters.", None, 1686483200000, Read, false,
    Some("thread-1"), None)
  const Msg9 := Message("msg-9", "conn-1", Slack, "sender-9", "Jamie Lee", Some("https://i.pravatar.cc/150?img=20"),
    "Got it. I'll handle any requests that come in. Enjoy your day off!", None, 1686483918000, Read, false,
    Some("thread-1"), Some("msg-8"))
  const Msg10 := Message("msg-10", "conn-1", Slack, "sender-8", "Alex Johnson", Some("https://i.pravatar.cc/150?img=11"),
    "Thanks Jamie, I appreciate it!", None, 1686484905000, Read, false, Some("thread-1"), Some("msg-9"))

  /** Threads are flat: msg-8 opens thread-1 and is a root, while msg-9 (a reply to msg-8) and msg-10 (a reply to msg-9) share its bucket. */
  lemma MockThreadIsFlat()
    ensures Filter(IsRoot, [Msg8, Msg9, Msg10]) == [Msg8]
    ensures Bucket([Msg8, Msg9, Msg10], "thread-1") == [Msg9, Msg10]
  {
    assert Filter(IsRoot, [Msg10]) == [] + Filter(IsRoot, []);
    assert Filter(IsRoot, [Msg9, Msg10]) == [] + Filter(IsRoot, [Msg10]);
    assert Filter(IsRoot, [Msg8, Msg9, Msg10]) == [Msg8] + Filter(IsRoot, [Msg9, Msg10]);
    var t := InThread("thread-1");
    assert Filter(t, [Msg10]) == [Msg10] + Filter(t, []);
    assert Filter(t, [Msg9, Msg10]) == [Msg9] + Filter(t, [Msg10]);
    assert Filter(t, [Msg8, Msg9, Msg10]) == [] + Filter(t, [Msg9, Msg10]);
  }

  /**
   * A reply lands in the bucket of its parent's thread (the parent's own id when the
   * parent has no thread), at the end, and in no other bucket: a reply to a reply joins
   * the existing thread instead of opening a nested one.  An empty message id makes
   * the reply's parent id falsy, so the reply would be grouped as a root.
   */
  lemma ReplyLandsInParentThread(ms: seq<Message>, id: string, content: string, newId: string, now: int,
                                 user: Option<UserProfile>, k: string)
    requires id != "" && Find(ms, WithId(id)).Some?
    ensures var parent := Find(ms, WithId(id)).value;
      var r := ReplyTo(ms, id, content, newId, now, user);
      var before := SetStatusWhere(ms, id, Replied);
      && IsReply(r[|ms|])
      && (k == OrElse(parent.threadId, parent.id) ==> Bucket(r, k) == Bucket(before, k) + [r[|ms|]])
      && (k != OrElse(parent.threadId, parent.id) ==> Bucket(r, k) == Bucket(before, k))
  {
    var parent := Find(ms, WithId(id)).value;
    var before := SetStatusWhere(ms, id, Replied);
    var reply := NewReply(parent, id, content, newId, now, user);
    ReplyToShape(ms, id, content, newId, now, user);
    ReplyBucket(before, reply, k);
  }

  lemma ReplyToShape(ms: seq<Message>, id: string, content: string, newId: string, now: int, user: Option<UserProfile>)
    requires Find(ms, WithId(id)).Some?
    ensures ReplyTo(ms, id, content, newId, now, user)
         == SetStatusWhere(ms, id, Replied) + [NewReply(Find(ms, WithId(id)).value, id, content, newId, now, user)]
  {
  }

  lemma ReplyBucket(before: seq<Message>, reply: Message, k: string)
    ensures Bucket(before + [reply], k) == Bucket(before, k) + (if InThread(k)(reply) then [reply] else [])
  {
    FilterConcat(InThread(k), before, [reply]);
    assert Filter(InThread(k), [reply]) == (if InThread(k)(reply) then [reply] else []) + Filter(InThread(k), []);
  }

  // ----- component state -----

  /** `openThreads[t]`, with a missing key read as closed. */
  predicate IsOpen(open: map<string, bool>, t: string)
    ensures t !in open ==> !IsOpen(open, t)
  {
    t in open && open[t]
  }

  /** toggleThread: flips thread `t`, leaving every other thread as it was. */
  function ToggleThread(open: map<string, bool>, t: string): (r: map<string, bool>)
    ensures IsOpen(r, t) == !IsOpen(open, t)
    ensures forall u | u != t :: IsOpen(r, u) == IsOpen(open, u)
  {
    open[t := !IsOpen(open, t)]
  }

  /** Toggling a thread twice restores whether every thread is open. */
  lemma ToggleThreadTwice(open: map<string, bool>, t: string, u: string)
    ensures IsOpen(ToggleThread(ToggleThread(open, t), t), u) == IsOpen(open, u)
  {
  }

  /** The state the component keeps: the reply draft, the message being replied to, the open threads. */
  class ListState {
    var replyText: string
    var replyingTo: Option<string>
    var openThreads: map<string, bool>

    constructor ()
      ensures replyText == "" && replyingTo.None? && openThreads == map[]
    {
      replyText := "";
      replyingTo := None;
      openThreads := map[];
    }

    method SetReplyText(text: string)
      modifies this`replyText
      ensures replyText == text
    {
      replyText := text;
    }

    /** handleReply: start a reply to `id` with an empty draft. */
    method HandleReply(id: string)
      modifies this`replyText, this`replyingTo
      ensures replyingTo == Some(id) && replyText == ""
    {
      replyingTo := Some(id);
      replyText := "";
    }

    /** The reply box's Cancel button: closes the reply UI and keeps the draft. */
    method CancelReply()
      modifies this`replyingTo
      ensures replyingTo.None?
    {
      replyingTo := None;
    }

    /**
     * handleSendReply: a draft that is blank after trimming sends nothing and keeps
     * the draft; otherwise the draft, untrimmed, is sent as the reply and the reply
     * UI is closed.
     */
    method HandleSendReply(store: AppState, id: string, newId: string, now: int)
      requires store.Valid()
      modifies this`replyText, this`replyingTo, store`messages
      ensures store.Valid()
      ensures IsBlank(old(replyText)) ==>
        && replyText == old(replyText) && replyingTo == old(replyingTo)
        && store.messages == old(store.messages)
      ensures !IsBlank(old(replyText)) ==>
        && store.messages == ReplyTo(old(store.messages), id, old(replyText), newId, now, old(store.user))
        && replyingTo.None? && replyText == ""
      ensures openThreads == old(openThreads)
    {
      TrimEmptyIffBlank(replyText);
      if Trim(replyText) != "" {
        store.ReplyToMessage(id, replyText, newId, now);
        replyingTo := None;
        replyText := "";
      }
    }

    method HandleToggleThread(t: string)
      modifies this`openThreads
      ensures openThreads == ToggleThread(old(openThreads), t)
    {
      openThreads := ToggleThread(openThreads, t);
    }

    /** handleToggleStar: stars with the negation of the flag the message shows. */
    method HandleToggleStar(store: AppState, id: string, currentValue: bool)
      requires store.Valid()
      modifies store`messages
      ensures store.Valid()
      ensures store.messages == StarMessage(old(store.messages), id, !currentValue)
    {
      store.Star(id, !currentValue);
    }

    /** handleMessageClick: marks the message as read. */
    method HandleMessageClick(store: AppState, id: string)
      requires store.Valid()
      modifies store`messages
      ensures store.Valid()
      ensures store.messages == MarkRead(old(store.messages), id)
    {
      store.MarkMessageAsRead(id);
    }

    method HandleArchive(store: AppState, id: string)
      requires store.Valid()
      modifies store`messages
      ensures store.Valid()
      ensures store.messages == ArchiveMessage(old(store.messages), id)
    {
      store.Archive(id);
    }
  }
}
