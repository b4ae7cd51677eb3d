/**
 * The channel manager of channel_manager.py: an object owning the
 * activation dictionary and the settings dictionary, updated in place by
 * the administrative commands. Each method is proved to leave the
 * dictionaries as the functions of modules Activation and ChannelSettings
 * say; the ghost fields record what was last written to the two JSON files,
 * which the source rewrites only after a successful change.
 */
module ChannelManagerCog {
  import opened Wrappers
  import opened Activation
  import opened ChannelSettings

  /** What activation reports: the new number of listed channels, or that the channel was listed. */
  datatype ActivateOutcome = Activated(activeCount: nat) | AlreadyActive

  /** What deactivation reports. */
  datatype DeactivateOutcome = Deactivated | NotActive

  /** One line of the channel list: the channel and whether auto-react is on for it. */
  datatype ChannelRow = ChannelRow(channel: ChannelId, fullyActive: bool)

  /** The three answers of the list command. */
  datatype ChannelListing =
    | AllChannelsActive           // no list, or an empty one
    | Rows(rows: seq<ChannelRow>) // the listed channels the platform still knows
    | NoValidChannels             // a list none of whose channels the platform knows

  function ChannelsOf(rows: seq<ChannelRow>): seq<ChannelId>
  {
    if rows == [] then [] else ChannelsOf(rows[..|rows| - 1]) + [rows[|rows| - 1].channel]
  }

  class ChannelManager {
    var activeChannels: ActiveMap
    var channelSettings: SettingsMap
    ghost var savedActive: ActiveMap
    ghost var savedSettings: SettingsMap

    /** Starts from the two documents read at start-up (an empty one when a file is missing). */
    constructor (loadedActive: ActiveMap, loadedSettings: SettingsMap)
      ensures activeChannels == loadedActive && channelSettings == loadedSettings
      ensures savedActive == loadedActive && savedSettings == loadedSettings
    {
      activeChannels, channelSettings := loadedActive, loadedSettings;
      savedActive, savedSettings := loadedActive, loadedSettings;
    }

    /** `is_channel_active`: the open-world rule of IsActive, read off the current dictionary. */
    function IsChannelActive(g: GuildId, c: ChannelId): (active: bool)
      reads this
      ensures active <==> Listed(activeChannels, g) == [] || c in Listed(activeChannels, g)
      ensures g !in activeChannels ==> active
    {
      IsActiveOpenWorld(activeChannels, g, c);
      IsActive(activeChannels, g, c)
    }

    /** `get_channel_settings`: the stored record, or the defaults. */
    function GetChannelSettings(g: GuildId, c: ChannelId): (st: Settings)
      reads this
      ensures HasStored(channelSettings, g, c) ==> st == channelSettings[g][c]
      ensures !HasStored(channelSettings, g, c) ==> st == Defaults
    {
      GetSettings(channelSettings, g, c)
    }

    /** `activate_channel`: create the guild's list if needed, append the channel if it is not listed. */
    method ActivateChannel(g: GuildId, c: ChannelId) returns (outcome: ActivateOutcome)
      modifies this
      ensures activeChannels == Activate(old(activeChannels), g, c)
      ensures outcome == if c in Listed(old(activeChannels), g) then AlreadyActive
                         else Activated(|activeChannels[g]|)
      ensures channelSettings == old(channelSettings) && savedSettings == old(savedSettings)
      ensures savedActive == if outcome.Activated? then activeChannels else old(savedActive)
    {
      if g !in activeChannels {
        activeChannels := activeChannels[g := []];
      }
      if c !in activeChannels[g] {
        activeChannels := activeChannels[g := activeChannels[g] + [c]];
        savedActive := activeChannels;
        outcome := Activated(|activeChannels[g]|);
      } else {
        outcome := AlreadyActive;
      }
    }

    /** `deactivate_channel`: remove the channel when the guild exists and lists it. */
    method DeactivateChannel(g: GuildId, c: ChannelId) returns (outcome: DeactivateOutcome)
      modifies this
      ensures activeChannels == Deactivate(old(activeChannels), g, c)
      ensures outcome == if c in Listed(old(activeChannels), g) then Deactivated else NotActive
      ensures channelSettings == old(channelSettings) && savedSettings == old(savedSettings)
      ensures savedActive == if outcome == Deactivated then activeChannels else old(savedActive)
    {
      DeactivateCases(activeChannels, g, c);
      if g in activeChannels && c in activeChannels[g] {
        activeChannels := activeChannels[g := RemoveFirst(activeChannels[g], c)];
        savedActive := activeChannels;
        outcome := Deactivated;
      } else {
        outcome := NotActive;
      }
    }

    /**
     * `list_channels`: "all channels" when the guild has no list or an empty
     * one; otherwise the listed channels the platform resolves, in list
     * order, each with its auto-react flag.
     */
    method ListChannels(g: GuildId, known: set<ChannelId>) returns (listing: ChannelListing)
      ensures listing == AllChannelsActive <==> Listed(activeChannels, g) == []
      ensures listing == NoValidChannels <==>
        Listed(activeChannels, g) != [] && Resolvable(Listed(activeChannels, g), known) == []
      ensures listing.Rows? ==> (listing.rows != []
        && ChannelsOf(listing.rows) == Resolvable(Listed(activeChannels, g), known)
        && forall i :: 0 <= i < |listing.rows| ==>
             listing.rows[i].fullyActive == GetSettings(channelSettings, g, listing.rows[i].channel).autoReact)
    {
      if g !in activeChannels || activeChannels[g] == [] {
        return AllChannelsActive;
      }
      var listed := activeChannels[g];
      var rows: seq<ChannelRow> := [];
      for i := 0 to |listed|
        invariant ChannelsOf(rows) == Resolvable(listed[..i], known)
        invariant forall j :: 0 <= j < |rows| ==>
          rows[j].fullyActive == GetSettings(channelSettings, g, rows[j].channel).autoReact
      {
        var ch := listed[i];
        ResolvableStep(listed, i, known);
        if ch in known {
          var row := ChannelRow(ch, GetChannelSettings(g, ch).autoReact);
          assert (rows + [row])[..|rows|] == rows;
          rows := rows + [row];
        }
      }
      assert listed[..|listed|] == listed;
      if rows != [] {
        listing := Rows(rows);
      } else {
        listing := NoValidChannels;
      }
    }

    /**
     * `customize_channel`: materialise the channel's record, validate the
     * name and value, and store the new value; the settings file is
     * rewritten only after a successful update.
     */
    method CustomizeChannel(g: GuildId, c: ChannelId, setting: Option<string>, value: string)
      returns (outcome: CustomizeOutcome)
      modifies this
      ensures (channelSettings, outcome) == Customize(old(channelSettings), g, c, setting, value)
      ensures activeChannels == old(activeChannels) && savedActive == old(savedActive)
      ensures savedSettings == if outcome.Updated? then channelSettings else old(savedSettings)
    {
      if setting.None? || setting.value == "" {
        return ShowHelp;
      }
      if g !in channelSettings {
        channelSettings := channelSettings[g := map[]];
      }
      if c !in channelSettings[g] {
        channelSettings := channelSettings[g := channelSettings[g][c := GetChannelSettings(g, c)]];
      }
      assert channelSettings == Materialise(old(channelSettings), g, c);
      var current := channelSettings[g][c];
      var key := ParseKey(setting.value);
      if key.Some? && key.value != ResponseChance {
        var flag := ParseFlag(value);
        if flag.None? {
          return InvalidFlag;
        }
        outcome := Updated(key.value, Flag(flag.value));
      } else if key == Some(ResponseChance) {
        var chance := Text.ParseInt(value);
        if chance.None? {
          return NotAnInteger;
        }
        if !(1 <= chance.value <= 100) {
          return ChanceOutOfRange;
        }
        outcome := Updated(ResponseChance, Percent(chance.value));
      } else {
        return UnknownSetting;
      }
      channelSettings := channelSettings[g := channelSettings[g][c := Set(current, outcome.key, outcome.value)]];
      savedSettings := channelSettings;
    }

    /** `reset_settings`: drop the guild from both dictionaries. */
    method ResetSettings(g: GuildId)
      modifies this
      ensures activeChannels == Reset(old(activeChannels), g)
      ensures channelSettings == Reset(old(channelSettings), g)
      ensures savedActive == if g in old(activeChannels) then activeChannels else old(savedActive)
      ensures savedSettings == if g in old(channelSettings) then channelSettings else old(savedSettings)
      ensures forall c :: IsActive(activeChannels, g, c) && GetSettings(channelSettings, g, c) == Defaults
    {
      if g in activeChannels {
        activeChannels := activeChannels - {g};
        savedActive := activeChannels;
      }
      if g in channelSettings {
        channelSettings := channelSettings - {g};
        savedSettings := channelSettings;
      }
    }
  }
}
