/**
 * The notifications page (src/pages/NotificationsPage.tsx): the page keeps its own
 * copy of the three switches and the muted list, seeded from the store's settings,
 * and every change is written to the store as a one-field update.
 */
module NotificationsPage {
  import opened Wrappers
  import opened Types
  import opened Seqs
  import opened Store

  function IsNot(id: string): string -> bool {
    (x: string) => x != id
  }

  /** toggleChannelMute's new list: every occurrence of `id` removed when it is muted, else `id` appended. */
  /** A toggle flips whether `id` is muted and keeps every other id's membership. */
  function ToggleMute(muted: seq<string>, id: string): (r: seq<string>)
    ensures id in r <==> id !in muted
    ensures forall x | x != id :: x in r <==> x in muted
  {
    if id in muted then Filter(IsNot(id), muted) else muted + [id]
  }

  /** A toggle leaves the other ids in the order they had. */
  lemma ToggleMuteSpec(muted: seq<string>, id: string)
    ensures Filter(IsNot(id), ToggleMute(muted, id)) == Filter(IsNot(id), muted)
  {
    if id in muted {
      FilterIdempotent(IsNot(id), muted);
    } else {
      FilterConcat(IsNot(id), muted, [id]);
      assert Filter(IsNot(id), [id]) == [] + Filter(IsNot(id), []);
    }
  }

  /** Muting an id that is not muted and then unmuting it gives back the list exactly. */
  lemma ToggleMuteTwice(muted: seq<string>, id: string)
    requires id !in muted
    ensures ToggleMute(ToggleMute(muted, id), id) == muted
  {
    FilterConcat(IsNot(id), muted, [id]);
    assert Filter(IsNot(id), [id]) == [] + Filter(IsNot(id), []);
    FilterKeepsAll(IsNot(id), muted);
  }

  function MutePatch(muted: seq<string>): SettingsPatch {
    SettingsPatch(None, None, None, None, Some(muted))
  }

  function PushPatch(checked: bool): SettingsPatch {
    SettingsPatch(None, Some(checked), None, None, None)
  }

  function EmailPatch(checked: bool): SettingsPatch {
    SettingsPatch(None, None, Some(checked), None, None)
  }

  function SoundPatch(checked: bool): SettingsPatch {
    SettingsPatch(None, None, None, Some(checked), None)
  }

  /** Each of the page's updates changes exactly one field of the stored settings. */
  lemma OneFieldUpdates(s: NotificationSettings, muted: seq<string>, checked: bool)
    ensures UpdateSettings(Some(s), MutePatch(muted)) == Some(s.(mutedChannels := muted))
    ensures UpdateSettings(Some(s), PushPatch(checked)) == Some(s.(enablePush := checked))
    ensures UpdateSettings(Some(s), EmailPatch(checked)) == Some(s.(enableEmail := checked))
    ensures UpdateSettings(Some(s), SoundPatch(checked)) == Some(s.(enableSound := checked))
  {
  }

  /** The page's local copy of the settings. */
  datatype LocalSettings = LocalSettings(enablePush: bool, enableEmail: bool, enableSound: bool, mutedChannels: seq<string>)

  /** The initial local state: the stored values, or off and nothing muted when there are no settings. */
  function InitialLocal(settings: Option<NotificationSettings>): (r: LocalSettings)
    ensures settings.None? ==> r == LocalSettings(false, false, false, [])
    ensures settings.Some? ==>
      r == LocalSettings(settings.value.enablePush, settings.value.enableEmail, settings.value.enableSound,
                         settings.value.mutedChannels)
  {
    LocalSettings(
      settings.Some? && settings.value.enablePush,
      settings.Some? && settings.value.enableEmail,
      settings.Some? && settings.value.enableSound,
      if settings.Some? then settings.value.mutedChannels else [])
  }

  /** The page's state: its local switches and muted list. */
  class PageState {
    var local: LocalSettings

    constructor (settings: Option<NotificationSettings>)
      ensures local == InitialLocal(settings)
    {
      local := InitialLocal(settings);
    }

    /** toggleChannelMute: the toggled list becomes both the local list and the store's. */
    method ToggleChannelMute(store: AppState, id: string)
      requires store.Valid()
      modifies this, store`notificationSettings
      ensures store.Valid()
      ensures local == old(local).(mutedChannels := ToggleMute(old(local.mutedChannels), id))
      ensures store.notificationSettings == UpdateSettings(old(store.notificationSettings), MutePatch(local.mutedChannels))
    {
      var next := ToggleMute(local.mutedChannels, id);
      local := local.(mutedChannels := next);
      store.UpdateNotificationSettings(MutePatch(next));
    }

    method HandlePushToggle(store: AppState, checked: bool)
      requires store.Valid()
      modifies this, store`notificationSettings
      ensures store.Valid()
      ensures local == old(local).(enablePush := checked)
      ensures store.notificationSettings == UpdateSettings(old(store.notificationSettings), PushPatch(checked))
    {
      local := local.(enablePush := checked);
      store.UpdateNotificationSettings(PushPatch(checked));
    }

    method HandleEmailToggle(store: AppState, checked: bool)
      requires store.Valid()
      modifies this, store`notificationSettings
      ensures store.Valid()
      ensures local == old(local).(enableEmail := checked)
      ensures store.notificationSettings == UpdateSettings(old(store.notificationSettings), EmailPatch(checked))
    {
      local := local.(enableEmail := checked);
      store.UpdateNotificationSettings(EmailPatch(checked));
    }

    method HandleSoundToggle(store: AppState, checked: bool)
      requires store.Valid()
      modifies this, store`notificationSettings
      ensures store.Valid()
      ensures local == old(local).(enableSound := checked)
      ensures store.notificationSettings == UpdateSettings(old(store.notificationSettings), SoundPatch(checked))
    {
      local := local.(enableSound := checked);
      store.UpdateNotificationSettings(SoundPatch(checked));
    }
  }
}
