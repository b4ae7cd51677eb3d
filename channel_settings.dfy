/**
 * Per-channel behaviour settings of channel_manager.py: the fixed record
 * with its defaults, the closed set of setting names, the two-language
 * true/false vocabulary, and the update `customize_channel` makes to the
 * guild -> channel -> settings dictionary.
 */
module ChannelSettings {
  import opened Wrappers
  import opened Text
  import opened Activation

  /** The five settings a channel can have. */
  datatype Settings = Settings(
    autoReact: bool,
    responseChance: int,
    welcomeMessages: bool,
    timeGreetings: bool,
    gamesEnabled: bool)

  /** The record every channel without stored settings reads as. */
  const Defaults: Settings := Settings(true, 30, true, true, true)

  /** guild id -> channel id -> stored settings */
  type SettingsMap = map<GuildId, map<ChannelId, Settings>>

  predicate HasStored(s: SettingsMap, g: GuildId, c: ChannelId)
  {
    g in s && c in s[g]
  }

  /** The stored record of the channel, or the defaults when none is stored. */
  function GetSettings(s: SettingsMap, g: GuildId, c: ChannelId): (r: Settings)
    ensures HasStored(s, g, c) ==> r == s[g][c]
    ensures !HasStored(s, g, c) ==> r == Defaults
  {
    if g in s && c in s[g] then s[g][c] else Defaults
  }

  // ---------------------------------------------------------------------
  // Setting names and values
  // ---------------------------------------------------------------------

  datatype Key = AutoReact | ResponseChance | WelcomeMessages | TimeGreetings | GamesEnabled

  /** The name under which a setting is addressed. */
  function KeyName(k: Key): string
  {
    match k
    case AutoReact => "auto_react"
    case ResponseChance => "response_chance"
    case WelcomeMessages => "welcome_messages"
    case TimeGreetings => "time_greetings"
    case GamesEnabled => "games_enabled"
  }

  /** The closed set of setting names; any other name is unknown. */
  function ParseKey(name: string): (r: Option<Key>)
    ensures r.Some? ==> KeyName(r.value) == name
    ensures r.None? ==> forall k: Key :: KeyName(k) != name
  {
    if name == "auto_react" then Some(AutoReact)
    else if name == "response_chance" then Some(ResponseChance)
    else if name == "welcome_messages" then Some(WelcomeMessages)
    else if name == "time_greetings" then Some(TimeGreetings)
    else if name == "games_enabled" then Some(GamesEnabled)
    else None
  }

  lemma KeyNameRoundTrip(k: Key)
    ensures ParseKey(KeyName(k)) == Some(k)
  {
  }

  /** Words that switch a boolean setting on (English and Arabic "yes"/"enabled"). */
  const TrueWords: seq<string> := ["true", "1", "نعم", "مفعل"]

  /** Words that switch a boolean setting off (English and Arabic "no"/"disabled"). */
  const FalseWords: seq<string> := ["false", "0", "لا", "معطل"]

  /** Reads a boolean setting's value, case-insensitively; anything outside the vocabulary is rejected. */
  function ParseFlag(value: string): (r: Option<bool>)
    ensures r == Some(true) <==> Lower(value) in TrueWords
    ensures r == Some(false) <==> Lower(value) in FalseWords
    ensures r.None? <==> Lower(value) !in TrueWords + FalseWords
  {
    var v := Lower(value);
    if v in TrueWords then Some(true)
    else if v in FalseWords then Some(false)
    else None
  }

  /** No word both switches on and switches off. */
  lemma VocabulariesDisjoint(w: string)
    ensures !(w in TrueWords && w in FalseWords)
  {
  }

  /** Upper-case English words are accepted like their lower-case forms. */
  lemma FlagIsCaseInsensitive()
    ensures ParseFlag("TRUE") == Some(true)
    ensures ParseFlag("False") == Some(false)
    ensures ParseFlag("yes") == None
  {
    assert Lower("TRUE") == "true";
    assert Lower("False") == "false";
    assert Lower("yes") == "yes";
  }

  /** A value a setting can take. */
  datatype Value = Flag(on: bool) | Percent(chance: int)

  /** Which kind of value a setting holds. */
  predicate Fits(k: Key, v: Value)
  {
    v.Percent? <==> k == ResponseChance
  }

  function Get(st: Settings, k: Key): (v: Value)
    ensures Fits(k, v)
  {
    match k
    case AutoReact => Flag(st.autoReact)
    case ResponseChance => Percent(st.responseChance)
    case WelcomeMessages => Flag(st.welcomeMessages)
    case TimeGreetings => Flag(st.timeGreetings)
    case GamesEnabled => Flag(st.gamesEnabled)
  }

  /** `settings[key] = value`: exactly the named field changes. */
  function Set(st: Settings, k: Key, v: Value): (r: Settings)
    requires Fits(k, v)
    ensures Get(r, k) == v
    ensures forall k' :: k' != k ==> Get(r, k') == Get(st, k')
  {
    match k
    case AutoReact => st.(autoReact := v.on)
    case ResponseChance => st.(responseChance := v.chance)
    case WelcomeMessages => st.(welcomeMessages := v.on)
    case TimeGreetings => st.(timeGreetings := v.on)
    case GamesEnabled => st.(gamesEnabled := v.on)
  }

  // ---------------------------------------------------------------------
  // customize_channel
  // ---------------------------------------------------------------------

  datatype CustomizeOutcome =
    | ShowHelp                    // no setting name given: the list of settings is shown
    | Updated(key: Key, value: Value)
    | InvalidFlag                 // a boolean setting with a word outside the vocabulary
    | ChanceOutOfRange            // response_chance outside 1..100
    | NotAnInteger                // response_chance that is not an integer
    | UnknownSetting

  predicate NoName(setting: Option<string>)
  {
    setting.None? || setting.value == ""
  }

  /**
   * The channel's record materialised in the dictionary: an empty guild
   * dictionary is created if needed, then the defaults are stored if the
   * channel had no record. This happens before the name and value are
   * checked, so it survives a rejected update.
   */
  function Materialise(s: SettingsMap, g: GuildId, c: ChannelId): (r: SettingsMap)
    ensures HasStored(r, g, c)
    ensures forall h, d :: GetSettings(r, h, d) == GetSettings(s, h, d)
  {
    var guild := if g in s then s[g] else map[];
    if c in guild then s else s[g := guild[c := Defaults]]
  }

  /** The new value a setting name and a raw value ask for, or why they are refused. */
  function Validate(name: string, value: string): (r: CustomizeOutcome)
    ensures r.Updated? ==> Fits(r.key, r.value) && KeyName(r.key) == name
    ensures r.Updated? && r.key == ResponseChance ==> 1 <= r.value.chance <= 100
  {
    match ParseKey(name)
    case None => UnknownSetting
    case Some(k) =>
      if k == ResponseChance then
        match ParseInt(value)
        case None => NotAnInteger
        case Some(n) => if 1 <= n <= 100 then Updated(k, Percent(n)) else ChanceOutOfRange
      else
        match ParseFlag(value)
        case None => InvalidFlag
        case Some(b) => Updated(k, Flag(b))
  }

  /** The dictionary after `customize_channel` and the answer it gives. */
  function Customize(s: SettingsMap, g: GuildId, c: ChannelId, setting: Option<string>, value: string)
    : (r: (SettingsMap, CustomizeOutcome))
    ensures r.1 == ShowHelp <==> NoName(setting)
    ensures r.1 == ShowHelp ==> r.0 == s
    ensures r.1 != ShowHelp ==> HasStored(r.0, g, c)
    ensures r.1.Updated? ==> Fits(r.1.key, r.1.value) && KeyName(r.1.key) == setting.value
    ensures r.1.Updated? ==> GetSettings(r.0, g, c) == Set(GetSettings(s, g, c), r.1.key, r.1.value)
    ensures forall h, d :: (h, d) != (g, c) ==> GetSettings(r.0, h, d) == GetSettings(s, h, d)
    ensures !r.1.Updated? ==> forall h, d :: GetSettings(r.0, h, d) == GetSettings(s, h, d)
  {
    if NoName(setting) then (s, ShowHelp)
    else
      var stored := Materialise(s, g, c);
      var outcome := Validate(setting.value, value);
      if outcome.Updated? then
        (stored[g := stored[g][c := Set(stored[g][c], outcome.key, outcome.value)]], outcome)
      else
        (stored, outcome)
  }

  /** response_chance is accepted exactly when the value is an integer in 1..100, and is then stored. */
  lemma ChanceAcceptedIff(s: SettingsMap, g: GuildId, c: ChannelId, value: string)
    ensures var r := Customize(s, g, c, Some("response_chance"), value);
      && (r.1.Updated? <==> ParseInt(value).Some? && 1 <= ParseInt(value).value <= 100)
      && (r.1.Updated? ==> GetSettings(r.0, g, c).responseChance == ParseInt(value).value)
      && (ParseInt(value).None? ==> r.1 == NotAnInteger)
      && (ParseInt(value).Some? && !(1 <= ParseInt(value).value <= 100) ==> r.1 == ChanceOutOfRange)
  {
    var r := Customize(s, g, c, Some("response_chance"), value);
    if r.1.Updated? {
      assert Get(GetSettings(r.0, g, c), ResponseChance) == r.1.value;
    }
  }

  /** The out-of-range chances 0 and 101 are refused and leave every channel's settings as they were. */
  lemma ChanceBoundsRefused(s: SettingsMap, g: GuildId, c: ChannelId)
    ensures Customize(s, g, c, Some("response_chance"), "0").1 == ChanceOutOfRange
    ensures Customize(s, g, c, Some("response_chance"), "101").1 == ChanceOutOfRange
    ensures forall h, d :: GetSettings(Customize(s, g, c, Some("response_chance"), "101").0, h, d) == GetSettings(s, h, d)
  {
    assert ParseInt("0") == Some(0);
    assert DigitsValue("101"[..2]) == 10 by {
      assert "101"[..2] == "10";
      assert "10"[..1] == "1";
      assert "1"[..0] == "";
    }
    assert ParseInt("101") == Some(101);
  }

  /**
   * A boolean setting is switched on exactly by a word of the true
   * vocabulary, off exactly by a word of the false vocabulary, and any other
   * word is refused.
   */
  lemma FlagAcceptedIff(s: SettingsMap, g: GuildId, c: ChannelId, k: Key, value: string)
    requires k != ResponseChance
    ensures var r := Customize(s, g, c, Some(KeyName(k)), value);
      && (r.1 == Updated(k, Flag(true)) <==> Lower(value) in TrueWords)
      && (r.1 == Updated(k, Flag(false)) <==> Lower(value) in FalseWords)
      && (r.1 == InvalidFlag <==> Lower(value) !in TrueWords + FalseWords)
  {
    KeyNameRoundTrip(k);
    assert KeyName(k) != "";
  }

  /** A name outside the closed key set is refused whatever the value. */
  lemma UnknownNameRefused(s: SettingsMap, g: GuildId, c: ChannelId, name: string, value: string)
    requires name != "" && ParseKey(name).None?
    ensures Customize(s, g, c, Some(name), value).1 == UnknownSetting
  {
  }

  /** Stored chances that start within 1..100 stay within 1..100. */
  ghost predicate ChancesInRange(s: SettingsMap)
  {
    forall g, c :: g in s && c in s[g] ==> 1 <= s[g][c].responseChance <= 100
  }

  lemma CustomizeKeepsChancesInRange(s: SettingsMap, g: GuildId, c: ChannelId, setting: Option<string>, value: string)
    requires ChancesInRange(s)
    ensures ChancesInRange(Customize(s, g, c, setting, value).0)
  {
    var r := Customize(s, g, c, setting, value);
    forall h, d | h in r.0 && d in r.0[h]
      ensures 1 <= r.0[h][d].responseChance <= 100
    {
      assert GetSettings(r.0, h, d) == r.0[h][d];
      if (h, d) == (g, c) && r.1.Updated? {
        var before := GetSettings(s, g, c);
        assert Get(GetSettings(r.0, g, c), ResponseChance) == Get(Set(before, r.1.key, r.1.value), ResponseChance);
      }
    }
  }

  lemma ResetRestoresDefaults(s: SettingsMap, g: GuildId, c: ChannelId, h: GuildId, d: ChannelId)
    ensures GetSettings(Reset(s, g), g, c) == Defaults
    ensures h != g ==> GetSettings(Reset(s, g), h, d) == GetSettings(s, h, d)
    ensures Reset(Reset(s, g), g) == Reset(s, g)
  {
  }
}
