/**
 * The sidebar (src/components/SidebarNav.tsx): the list of connected channels, the
 * user's initials in the avatar fallback, the logo of each channel type, and which
 * channel item is highlighted.
 */
module SidebarNav {
  import opened Wrappers
  import opened Types
  import opened Seqs
  import opened Text
  import opened Store

  // ----- connected channels -----

  function ConnectedAsWrittenHit(c: ChannelConnection): bool {
    ChannelFlagField(c, "is_connected") == Some(true)
  }

  /**
   * The connected list as written: it reads `is_connected`, which a channel does not
   * have, so the sidebar (and the dashboard's "connected channels" count) never lists
   * a channel.
   */
  function ConnectedChannelsAsWritten(chs: seq<ChannelConnection>): (r: seq<ChannelConnection>)
    ensures r == []
  {
    FilterNone(ConnectedAsWrittenHit, chs);
    Filter(ConnectedAsWrittenHit, chs)
  }

  const SampleChannel := ChannelConnection("conn-1", "user-1", Slack, "Work Slack", true, None, 0, None)

  /** One connected channel: the intended list holds it, the list as written is empty. */
  lemma ConnectedCounterexample()
    ensures ConnectedChannels([SampleChannel]) == [SampleChannel]
    ensures ConnectedChannelsAsWritten([SampleChannel]) == []
  {
    assert Filter(IsConnected, [SampleChannel]) == [SampleChannel] + Filter(IsConnected, []);
  }

  // ----- initials -----

  /** `parts.map(part => part[0]).join('')`: an empty part gives `undefined`, which `join` writes as nothing. */
  function FirstChars(parts: seq<string>): (r: string)
    ensures |r| <= |parts|
    decreases |parts|
  {
    if parts == [] then ""
    else (if parts[0] == "" then "" else [parts[0][0]]) + FirstChars(parts[1..])
  }

  /** `name.split(' ').map(part => part[0]).join('').toUpperCase()`: at most one letter per space-separated part. */
  function GetInitials(name: string): (r: string)
    ensures |r| <= |Split(name, ' ')|
  {
    Upper(FirstChars(Split(name, ' ')))
  }

  /** The number of non-empty parts. */
  function NonEmptyCount(parts: seq<string>): nat
    decreases |parts|
  {
    if parts == [] then 0 else (if parts[0] == "" then 0 else 1) + NonEmptyCount(parts[1..])
  }

  /** One initial per non-empty part, and no initial is a space (a part never holds the separator). */
  lemma {:induction false} FirstCharsSpec(parts: seq<string>)
    requires forall k | 0 <= k < |parts| :: ' ' !in parts[k]
    ensures |FirstChars(parts)| == NonEmptyCount(parts)
    ensures ' ' !in FirstChars(parts)
    decreases |parts|
  {
    if parts != [] {
      FirstCharsSpec(parts[1..]);
      if parts[0] != "" {
        assert parts[0][0] in parts[0];
      }
    }
  }

  /**
   * The initials hold one letter per non-empty space-separated part, so they are no
   * longer than the number of parts, and they never contain a space.
   */
  lemma InitialsSpec(name: string)
    ensures |GetInitials(name)| == NonEmptyCount(Split(name, ' ')) <= Occurrences(name, ' ') + 1
    ensures ' ' !in GetInitials(name)
  {
    var parts := Split(name, ' ');
    FirstCharsSpec(parts);
    var first := FirstChars(parts);
    forall i | 0 <= i < |first| ensures GetInitials(name)[i] != ' ' {
      assert first[i] in first;
    }
  }

  /** Words joined by single spaces give the upper-cased first letter of each word, in order ("Alex Johnson" gives "AJ"). */
  lemma InitialsOfWords(words: seq<string>)
    requires |words| >= 1
    requires forall k | 0 <= k < |words| :: words[k] != "" && ' ' !in words[k]
    ensures GetInitials(Join(words, ' ')) == seq(|words|, i requires 0 <= i < |words| => UpperChar(words[i][0]))
  {
    SplitJoin(words, ' ');
    FirstOfEach(words);
  }

  lemma {:induction false} FirstOfEach(words: seq<string>)
    requires forall k | 0 <= k < |words| :: words[k] != ""
    ensures FirstChars(words) == seq(|words|, i requires 0 <= i < |words| => words[i][0])
    decreases |words|
  {
    if words != [] {
      FirstOfEach(words[1..]);
    }
  }

  // ----- channel icons -----

  /** The logo map of getChannelIcon. */
  const LogoMap: map<string, string> := map[
    "slack" := "/logos/slack.svg",
    "discord" := "/logos/discord.svg",
    "teams" := "/logos/teams.svg",
    "gmail" := "/logos/gmail.svg",
    "twitter" := "/logos/twitter.svg",
    "linkedin" := "/logos/linkedin.svg"]

  /**
   * `logoMap[channelType] || '/placeholder.svg'`: the `||` fallback never hides a logo,
   * so a key of the map gets its logo and any other string the placeholder.
   */
  function GetChannelIcon(channelType: string): (r: string)
    ensures channelType in LogoMap ==> r == LogoMap[channelType]
    ensures channelType !in LogoMap ==> r == "/placeholder.svg"
  {
    if channelType in LogoMap && LogoMap[channelType] != "" then LogoMap[channelType] else "/placeholder.svg"
  }

  /** Every channel type gets its own logo, the same one connectChannel stores as the channel's avatar. */
  lemma ChannelIconOfType(t: ChannelType)
    ensures GetChannelIcon(ChannelTypeName(t)) == "/logos/" + ChannelTypeName(t) + ".svg" == LogoPath(t)
  {
    match t
    case Slack => assert "/logos/" + "slack" + ".svg" == "/logos/slack.svg";
    case Discord => assert "/logos/" + "discord" + ".svg" == "/logos/discord.svg";
    case Teams => assert "/logos/" + "teams" + ".svg" == "/logos/teams.svg";
    case Gmail => assert "/logos/" + "gmail" + ".svg" == "/logos/gmail.svg";
    case Twitter => assert "/logos/" + "twitter" + ".svg" == "/logos/twitter.svg";
    case LinkedIn => assert "/logos/" + "linkedin" + ".svg" == "/logos/linkedin.svg";
  }

  /** Exactly the strings that name no channel type get the placeholder: the map's keys are the enumeration. */
  lemma PlaceholderIffNoType(s: string)
    ensures GetChannelIcon(s) == "/placeholder.svg" <==> ParseChannelType(s).None?
  {
    assert LogoMap.Keys == {"slack", "discord", "teams", "gmail", "twitter", "linkedin"};
    if ParseChannelType(s).Some? {
      var t := ParseChannelType(s).value;
      ChannelIconOfType(t);
    }
  }

  // ----- active item -----

  /** A channel item is highlighted when it is the current channel. */
  predicate IsActive(currentChannel: Option<string>, c: ChannelConnection)
    ensures currentChannel.None? ==> !IsActive(currentChannel, c)
  {
    currentChannel == Some(c.id)
  }

  function ActiveIn(currentChannel: Option<string>): ChannelConnection -> bool {
    (c: ChannelConnection) => IsActive(currentChannel, c)
  }

  /** With distinct channel ids at most one item is highlighted, and it is the current channel. */
  lemma {:induction false} AtMostOneActive(chs: seq<ChannelConnection>, currentChannel: Option<string>)
    requires forall a, b | 0 <= a < b < |chs| :: chs[a].id != chs[b].id
    ensures |Filter(ActiveIn(currentChannel), chs)| <= 1
    ensures forall c | c in Filter(ActiveIn(currentChannel), chs) :: currentChannel == Some(c.id)
    decreases |chs|
  {
    if chs != [] {
      var rest := chs[1..];
      assert forall a, b | 0 <= a < b < |rest| :: rest[a].id != rest[b].id by {
        forall a, b | 0 <= a < b < |rest| ensures rest[a].id != rest[b].id {
          assert rest[a] == chs[a + 1] && rest[b] == chs[b + 1];
        }
      }
      AtMostOneActive(rest, currentChannel);
      if IsActive(currentChannel, chs[0]) {
        forall c | c in rest ensures !IsActive(currentChannel, c) {
          var b :| 0 <= b < |rest| && rest[b] == c;
          assert chs[b + 1] == c;
        }
        FilterNone(ActiveIn(currentChannel), rest);
      }
    }
  }
}
