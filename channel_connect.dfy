/**
 * The "connect a new channel" form (src/components/ChannelConnect.tsx): the channel
 * type picker, the checks before connecting, and the reset afterwards.
 */
module ChannelConnect {
  import opened Wrappers
  import opened Types
  import opened Store

  datatype ChannelOption = ChannelOption(value: string, caption: string)

  /** The picker's entries. */
  const ChannelOptions: seq<ChannelOption> := [
    ChannelOption("slack", "Slack"),
    ChannelOption("discord", "Discord"),
    ChannelOption("teams", "Microsoft Teams"),
    ChannelOption("gmail", "Gmail"),
    ChannelOption("twitter", "Twitter"),
    ChannelOption("linkedin", "LinkedIn")]

  /** The picker offers exactly the channel types, once each, in the order of the enumeration. */
  lemma ChannelOptionsAreTheTypes(t: ChannelType)
    ensures |ChannelOptions| == |AllChannelTypes|
    ensures forall i | 0 <= i < |ChannelOptions| :: ChannelOptions[i].value == ChannelTypeName(AllChannelTypes[i])
    ensures forall o | o in ChannelOptions :: ParseChannelType(o.value).Some?
    ensures exists i | 0 <= i < |ChannelOptions| :: ParseChannelType(ChannelOptions[i].value) == Some(t)
  {
    ChannelTypeClosed(t);
    ChannelTypeNameRoundTrip(t, t);
    var i :| 0 <= i < |AllChannelTypes| && AllChannelTypes[i] == t;
    assert ChannelOptions[i].value == ChannelTypeName(t);
  }

  const NoTypeSelected := "Please select a channel type"
  const NoName := "Please enter a name for this connection"

  /** The error handleConnect stops with, if any: the type is checked before the name. */
  function ConnectCheck(channelType: Option<ChannelType>, name: string): (err: Option<string>)
    ensures channelType.None? ==> err == Some(NoTypeSelected)
    ensures channelType.Some? && name == "" ==> err == Some(NoName)
    ensures err.None? <==> channelType.Some? && name != ""
  {
    if channelType.None? then Some(NoTypeSelected)
    else if name == "" then Some(NoName)
    else None
  }

  /** The form's state; "no type selected" is None. */
  class ConnectForm {
    var channelType: Option<ChannelType>
    var channelName: string
    var isConnecting: bool
    var error: string

    constructor ()
      ensures channelType.None? && channelName == "" && !isConnecting && error == ""
    {
      channelType, channelName, isConnecting, error := None, "", false, "";
    }

    method SelectType(t: ChannelType)
      modifies this`channelType
      ensures channelType == Some(t)
    {
      channelType := Some(t);
    }

    method SetName(name: string)
      modifies this`channelName
      ensures channelName == name
    {
      channelName := name;
    }

    /**
     * handleConnect: the error is cleared; a missing type or name stops it with
     * that message and nothing else changes; otherwise the channel is connected
     * once and the form is reset.
     */
    method HandleConnect(store: AppState, newId: string, now: int) returns (connected: bool)
      requires store.Valid()
      modifies this, store`channels
      ensures store.Valid()
      ensures connected <==> ConnectCheck(old(channelType), old(channelName)).None?
      ensures !connected ==>
        && Some(error) == ConnectCheck(old(channelType), old(channelName))
        && channelType == old(channelType) && channelName == old(channelName)
        && isConnecting == old(isConnecting) && store.channels == old(store.channels)
      ensures connected ==>
        && store.channels == Connect(old(store.channels), old(channelType).value, old(channelName), newId,
                                     UserIdOrDefault(store.user), now)
        && channelType.None? && channelName == "" && !isConnecting && error == ""
    {
      error := "";
      if channelType.None? {
        error := NoTypeSelected;
        return false;
      }
      if channelName == "" {
        error := NoName;
        return false;
      }
      isConnecting := true;
      store.ConnectChannel(channelType.value, channelName, newId, now);
      channelType := None;
      channelName := "";
      isConnecting := false;
      connected := true;
    }
  }
}
