/**
 * The dashboard's statistics cards (src/components/DashboardStats.tsx): the message
 * counters, the per-channel-type tally, the chart data built from it and the bar
 * colours.  The counters and the tally are modelled as the code evidently intends
 * them, on the typed fields; the code as written reads field names the records do
 * not have, and the members with `AsWritten` in their names model that.
 */
module DashboardStats {
  import opened Wrappers
  import opened Types
  import opened Seqs
  import opened Store

  // ----- counters -----

  function TotalMessages(ms: seq<Message>): nat {
    |ms|
  }

  predicate IsStarred(m: Message) {
    m.isStarred
  }

  predicate IsArchived(m: Message) {
    m.status == Archived
  }

  /** The "Starred Messages" card: zero exactly when no message is starred. */
  function StarredMessages(ms: seq<Message>): (r: nat)
    ensures r == 0 <==> forall m | m in ms :: !m.isStarred
  {
    FilterEmptyIff(IsStarred, ms);
    |Filter(IsStarred, ms)|
  }

  /** The "Archived" card: zero exactly when no message is archived. */
  function ArchivedMessages(ms: seq<Message>): (r: nat)
    ensures r == 0 <==> forall m | m in ms :: m.status != Archived
  {
    FilterEmptyIff(IsArchived, ms);
    |Filter(IsArchived, ms)|
  }

  /**
   * Each counter is at most the total, and since a message has exactly one status,
   * the unread and the archived messages together are at most the total as well.
   */
  lemma CounterBounds(ms: seq<Message>)
    ensures UnreadCount(ms) <= TotalMessages(ms)
    ensures StarredMessages(ms) <= TotalMessages(ms)
    ensures ArchivedMessages(ms) <= TotalMessages(ms)
    ensures UnreadCount(ms) + ArchivedMessages(ms) <= TotalMessages(ms)
  {
    FilterDisjoint(IsUnread, IsArchived, ms);
  }

  /**
   * Starring and status are separate fields of a message, so in the store they move
   * separate counters: starring never changes the unread or archived count, and
   * marking as read or archiving never changes the starred count.
   */
  lemma StarAndStatusOrthogonal(ms: seq<Message>, id: string, b: bool)
    ensures UnreadCount(StarMessage(ms, id, b)) == UnreadCount(ms)
    ensures ArchivedMessages(StarMessage(ms, id, b)) == ArchivedMessages(ms)
    ensures StarredMessages(MarkRead(ms, id)) == StarredMessages(ms)
    ensures StarredMessages(ArchiveMessage(ms, id)) == StarredMessages(ms)
  {
    var starred := StarMessage(ms, id, b);
    FilterLengthPointwise(IsUnread, starred, ms);
    FilterLengthPointwise(IsArchived, starred, ms);
    FilterLengthPointwise(IsStarred, MarkRead(ms, id), ms);
    FilterLengthPointwise(IsStarred, ArchiveMessage(ms, id), ms);
  }

  /** The starred counter as written: it reads `is_starred`, which a message does not have. */
  function StarredAsWrittenHit(m: Message): bool {
    MessageFlagField(m, "is_starred") == Some(true)
  }

  /** As written, the starred counter is zero for every inbox. */
  function StarredMessagesAsWritten(ms: seq<Message>): (r: nat)
    ensures r == 0
  {
    FilterNone(StarredAsWrittenHit, ms);
    |Filter(StarredAsWrittenHit, ms)|
  }

  const SampleChannel := ChannelConnection("conn-1", "user-1", Slack, "Work Slack", true, None, 0, None)

  const SampleMessage := Message("msg-1", "conn-1", Slack, "sender-1", "Sarah Chen", None, "Hello", None, 0,
    Unread, true, None, None)

  /** One starred message: the intended counter says one, the counter as written says zero. */
  lemma StarredCounterexample()
    ensures StarredMessages([SampleMessage]) == 1
    ensures StarredMessagesAsWritten([SampleMessage]) == 0
  {
    assert Filter(IsStarred, [SampleMessage]) == [SampleMessage] + Filter(IsStarred, []);
  }

  // ----- tally by channel type -----

  /** The channel a message came from: the first channel whose id is the message's channel id. */
  function ChannelOf(chs: seq<ChannelConnection>, m: Message): Option<ChannelConnection> {
    Find(chs, ChannelWithId(m.channelId))
  }

  function HasChannel(chs: seq<ChannelConnection>): Message -> bool {
    (m: Message) => ChannelOf(chs, m).Some?
  }

  function OfType(chs: seq<ChannelConnection>, t: ChannelType): Message -> bool {
    (m: Message) => ChannelOf(chs, m).Some? && ChannelOf(chs, m).value.channelType == t
  }

  /** The number of messages whose channel exists and has type `t`. */
  function CountOfType(ms: seq<Message>, chs: seq<ChannelConnection>, t: ChannelType): nat {
    |Filter(OfType(chs, t), ms)|
  }

  /** The number of messages whose channel exists. */
  function MatchedCount(ms: seq<Message>, chs: seq<ChannelConnection>): nat {
    |Filter(HasChannel(chs), ms)|
  }

  function Count(n: nat): nat {
    n
  }

  /** `messagesByChannelType[t]++` for the type of `m`'s channel, creating the key at 0 first; nothing when the channel is missing. */
  function Bump(tally: map<ChannelType, nat>, chs: seq<ChannelConnection>, m: Message): map<ChannelType, nat> {
    match ChannelOf(chs, m)
    case None => tally
    case Some(c) => tally[c.channelType := (if c.channelType in tally then tally[c.channelType] else 0) + 1]
  }

  /** The key order after `Bump`: a key created now goes to the end. */
  function BumpOrder(order: seq<ChannelType>, tally: map<ChannelType, nat>, chs: seq<ChannelConnection>, m: Message): seq<ChannelType> {
    match ChannelOf(chs, m)
    case None => order
    case Some(c) => if c.channelType in tally then order else order + [c.channelType]
  }

  /** The tally after the messages `s`, one `Bump` per message in order. */
  function TallyOf(s: seq<Message>, chs: seq<ChannelConnection>): map<ChannelType, nat>
    decreases |s|
  {
    if s == [] then map[] else Bump(TallyOf(s[..|s| - 1], chs), chs, s[|s| - 1])
  }

  /** The key order after the messages `s`. */
  function OrderOf(s: seq<Message>, chs: seq<ChannelConnection>): seq<ChannelType>
    decreases |s|
  {
    if s == [] then []
    else BumpOrder(OrderOf(s[..|s| - 1], chs), TallyOf(s[..|s| - 1], chs), chs, s[|s| - 1])
  }

  /** The keys are the types seen in `s` and each count is exact. */
  ghost predicate CountsExact(s: seq<Message>, chs: seq<ChannelConnection>, tally: map<ChannelType, nat>) {
    forall t :: (t in tally <==> |Filter(OfType(chs, t), s)| > 0)
             && (t in tally ==> tally[t] == |Filter(OfType(chs, t), s)|)
  }

  /** The key order lists each key once. */
  ghost predicate OrderExact(order: seq<ChannelType>, tally: map<ChannelType, nat>) {
    && (forall i, j | 0 <= i < j < |order| :: order[i] != order[j])
    && (forall t :: t in order <==> t in tally)
  }

  lemma CountsStep(s: seq<Message>, m: Message, chs: seq<ChannelConnection>, tally: map<ChannelType, nat>)
    requires CountsExact(s, chs, tally)
    ensures CountsExact(s + [m], chs, Bump(tally, chs, m))
  {
    forall u ensures Filter(OfType(chs, u), s + [m]) == Filter(OfType(chs, u), s) + (if OfType(chs, u)(m) then [m] else []) {
      FilterPush(OfType(chs, u), s, m);
    }
  }

  lemma OrderStep(order: seq<ChannelType>, tally: map<ChannelType, nat>, chs: seq<ChannelConnection>, m: Message)
    requires OrderExact(order, tally)
    ensures OrderExact(BumpOrder(order, tally, chs, m), Bump(tally, chs, m))
  {
    var order' := BumpOrder(order, tally, chs, m);
    forall a, b | 0 <= a < b < |order'| ensures order'[a] != order'[b] {
      if b == |order| {
        assert order[a] in order;
      }
    }
  }

  /** Incrementing one key's count, creating it at 0 first, adds one to the sum. */
  lemma SumOfIncrement(tally: map<ChannelType, nat>, k: ChannelType)
    ensures SumOf(tally[k := (if k in tally then tally[k] else 0) + 1], Count) == SumOf(tally, Count) + 1
  {
    SumOfUpdate(tally, Count, k, (if k in tally then tally[k] else 0) + 1);
  }

  lemma SumStep(s: seq<Message>, m: Message, chs: seq<ChannelConnection>, tally: map<ChannelType, nat>)
    requires SumOf(tally, Count) == |Filter(HasChannel(chs), s)|
    ensures SumOf(Bump(tally, chs, m), Count) == |Filter(HasChannel(chs), s + [m])|
  {
    var hit := ChannelOf(chs, m).Some?;
    assert |Filter(HasChannel(chs), s + [m])| == |Filter(HasChannel(chs), s)| + (if hit then 1 else 0) by {
      FilterPush(HasChannel(chs), s, m);
    }
    assert SumOf(Bump(tally, chs, m), Count) == SumOf(tally, Count) + (if hit then 1 else 0) by {
      match ChannelOf(chs, m)
      case None =>
      case Some(c) => SumOfIncrement(tally, c.channelType);
    }
  }

  /**
   * What the tally means: every channel type that some message's channel has is a key,
   * no other type is, each key counts exactly the messages of its type, the counts add
   * up to the number of messages whose channel exists, and the key order lists every
   * key once.
   */
  lemma {:induction false} TallyOfSpec(s: seq<Message>, chs: seq<ChannelConnection>)
    ensures CountsExact(s, chs, TallyOf(s, chs))
    ensures OrderExact(OrderOf(s, chs), TallyOf(s, chs))
    ensures SumOf(TallyOf(s, chs), Count) == |Filter(HasChannel(chs), s)|
    decreases |s|
  {
    if s != [] {
      var init := s[..|s| - 1];
      var last := s[|s| - 1];
      assert s == init + [last];
      TallyOfSpec(init, chs);
      CountsStep(init, last, chs, TallyOf(init, chs));
      OrderStep(OrderOf(init, chs), TallyOf(init, chs), chs, last);
      SumStep(init, last, chs, TallyOf(init, chs));
    }
  }

  /**
   * messagesByChannelType, with its keys in the order they were created (the order
   * `Object.entries` returns them in): every channel type that some message's channel
   * has is a key, no other type is, each key counts exactly the messages of its type
   * (so at least one), and the counts add up to the number of messages whose channel
   * exists, which is at most the number of messages.
   */
  method TallyByChannelType(ms: seq<Message>, chs: seq<ChannelConnection>)
    returns (tally: map<ChannelType, nat>, order: seq<ChannelType>)
    ensures tally == TallyOf(ms, chs) && order == OrderOf(ms, chs)
    ensures forall t :: t in tally <==> CountOfType(ms, chs, t) > 0
    ensures forall t | t in tally :: tally[t] == CountOfType(ms, chs, t) && tally[t] >= 1
    ensures SumOf(tally, Count) == MatchedCount(ms, chs) <= |ms|
    ensures forall i, j | 0 <= i < j < |order| :: order[i] != order[j]
    ensures forall t :: t in order <==> t in tally
  {
    tally := map[];
    order := [];
    var i := 0;
    while i < |ms|
      invariant 0 <= i <= |ms|
      invariant tally == TallyOf(ms[..i], chs) && order == OrderOf(ms[..i], chs)
    {
      assert ms[..i + 1][..i] == ms[..i];
      var channel := ChannelOf(chs, ms[i]);
      if channel.Some? {
        var t := channel.value.channelType;
        if t !in tally {
          order := order + [t];
        }
        var current := if t in tally then tally[t] else 0;
        tally := tally[t := current + 1];
      }
      i := i + 1;
    }
    assert ms[..i] == ms;
    TallyOfSpec(ms, chs);
  }

  /**
   * The tally's lookup as written: it compares channel ids with `channel_id`, which a
   * message does not have, so no message finds its channel and the tally stays empty
   * whatever the inbox.
   */
  function ChannelOfAsWritten(chs: seq<ChannelConnection>, m: Message): (r: Option<ChannelConnection>)
    ensures r.None?
  {
    Find(chs, (c: ChannelConnection) => Some(c.id) == MessageStringField(m, "channel_id"))
  }

  /** A message of an existing Slack channel: counted once for Slack as intended, found by nobody as written. */
  lemma TallyCounterexample()
    ensures CountOfType([SampleMessage], [SampleChannel], Slack) == 1
    ensures ChannelOfAsWritten([SampleChannel], SampleMessage).None?
  {
    assert ChannelOf([SampleChannel], SampleMessage) == Some(SampleChannel);
    assert Filter(OfType([SampleChannel], Slack), [SampleMessage])
        == [SampleMessage] + Filter(OfType([SampleChannel], Slack), []);
  }

  // ----- chart data -----

  /** One bar of the channel distribution chart. */
  datatype Bar = Bar(name: string, value: nat)

  /** channelDistributionData: one bar per tally key, in key order, named by the channel type. */
  function DistributionData(tally: map<ChannelType, nat>, order: seq<ChannelType>): (bars: seq<Bar>)
    requires forall t | t in order :: t in tally
    ensures |bars| == |order|
    ensures forall i | 0 <= i < |order| :: bars[i] == Bar(ChannelTypeName(order[i]), tally[order[i]])
  {
    seq(|order|, i requires 0 <= i < |order| => Bar(ChannelTypeName(order[i]), tally[order[i]]))
  }

  /**
   * With the tally loop's keys, the chart has exactly one bar per key, carrying that
   * key's count, and no two bars share a name.
   */
  lemma DistributionOnePerKey(tally: map<ChannelType, nat>, order: seq<ChannelType>)
    requires forall i, j | 0 <= i < j < |order| :: order[i] != order[j]
    requires forall t :: t in order <==> t in tally
    ensures |DistributionData(tally, order)| == |tally|
    ensures forall t | t in tally ::
      exists i | 0 <= i < |order| :: DistributionData(tally, order)[i] == Bar(ChannelTypeName(t), tally[t])
    ensures forall i, j | 0 <= i < j < |order| :: DistributionData(tally, order)[i].name != DistributionData(tally, order)[j].name
  {
    DistinctCardinality(order, tally.Keys);
    forall t | t in tally
      ensures exists i | 0 <= i < |order| :: DistributionData(tally, order)[i] == Bar(ChannelTypeName(t), tally[t])
    {
      var i :| 0 <= i < |order| && order[i] == t;
      assert DistributionData(tally, order)[i] == Bar(ChannelTypeName(t), tally[t]);
    }
    forall i, j | 0 <= i < j < |order|
      ensures DistributionData(tally, order)[i].name != DistributionData(tally, order)[j].name
    {
      ChannelTypeNameRoundTrip(order[i], order[j]);
    }
  }

  /** A sequence without repeats has as many elements as the set of its elements. */
  lemma {:induction false} DistinctCardinality(order: seq<ChannelType>, keys: set<ChannelType>)
    requires forall i, j | 0 <= i < j < |order| :: order[i] != order[j]
    requires forall t :: t in order <==> t in keys
    ensures |order| == |keys|
    decreases |order|
  {
    if order != [] {
      var last := order[|order| - 1];
      var init := order[..|order| - 1];
      assert last !in init by {
        forall i | 0 <= i < |init| ensures init[i] != last {
          assert init[i] == order[i];
        }
      }
      forall t ensures t in init <==> t in keys - {last} {
        if t in init {
          var i :| 0 <= i < |init| && init[i] == t;
          assert order[i] == t;
        }
        if t in keys - {last} {
          var i :| 0 <= i < |order| && order[i] == t;
          assert i < |order| - 1;
          assert init[i] == t;
        }
      }
      DistinctCardinality(init, keys - {last});
    } else {
      assert forall t :: t !in keys;
      assert keys == {};
    }
  }

  /** The six bar colours. */
  const Colors: seq<string> := ["#6366F1", "#8B5CF6", "#EC4899", "#10B981", "#F59E0B", "#EF4444"]

  /** `COLORS[index % COLORS.length]`: a colour of the palette for every bar, repeating every six bars. */
  function BarColor(index: nat): (c: string)
    ensures c in Colors
    ensures c == Colors[index % 6]
  {
    Colors[index % |Colors|]
  }

  /** The six palette colours are pairwise different, so the first six bars differ in colour. */
  lemma PaletteDistinct(i: nat, j: nat)
    requires i < j < |Colors|
    ensures BarColor(i) != BarColor(j)
  {
    assert BarColor(i) == Colors[i] && BarColor(j) == Colors[j];
    assert Colors[i][1] != Colors[j][1] || Colors[i][2] != Colors[j][2];
  }

  /** A channel distribution has at most one key per channel type, so at most six. */
  lemma TallyKeysAtMostSix(tally: map<ChannelType, nat>)
    ensures |tally| <= 6
  {
    var all := {Slack, Discord, Teams, Gmail, Twitter, LinkedIn};
    forall t | t in tally.Keys ensures t in all {
      match t
      case Slack => case Discord => case Teams => case Gmail => case Twitter => case LinkedIn =>
    }
    SubsetCardinality(tally.Keys, all);
  }

  /**
   * The chart has at most one bar per channel type, so at most six bars, and the
   * palette has six colours: no two bars of the chart share a colour.
   */
  lemma DistributionColorsDistinct(tally: map<ChannelType, nat>, order: seq<ChannelType>)
    requires forall i, j | 0 <= i < j < |order| :: order[i] != order[j]
    requires forall t :: t in order <==> t in tally
    ensures |DistributionData(tally, order)| <= |Colors|
    ensures forall i, j | 0 <= i < j < |order| :: BarColor(i) != BarColor(j)
  {
    DistinctCardinality(order, tally.Keys);
    TallyKeysAtMostSix(tally);
    forall i, j | 0 <= i < j < |order| ensures BarColor(i) != BarColor(j) {
      PaletteDistinct(i, j);
    }
  }

  lemma SubsetCardinality<T>(a: set<T>, b: set<T>)
    requires a <= b
    ensures |a| <= |b|
  {
    assert b == a + (b - a);
  }
}
