# ARB-bot core in Dafny

ARB-bot is an Arabic-language chat bot. This project models the bookkeeping
and decision logic behind its platform calls, and proves properties about it:

- **Channel manager** (`channel_manager.py`): the channel manager object owns
  two maps and updates them in place.
  - Activation map: guild → ordered list of channel ids. A guild with no
    list, or with an empty list, is active in every channel.
  - Settings map: guild → channel → a five-field settings record. A channel
    with no stored record reads as the defaults.
  - Commands: activate, deactivate, list, customize and reset.
  - The model is the class `ChannelManagerCog.ChannelManager`. Its methods are
    proved to leave the maps as the pure functions of modules `Activation`
    and `ChannelSettings` say. Those functions carry the invariants and
    lemmas: no duplicate channels, the open-world rule, idempotence, and the
    validation of setting names and values.
- **Message handling** (`bot.py`): the keyword classifier over `KEYWORDS` and
  the canned answers.
  - `bot.py` keeps its own module-level activation map. The `on_message`
    gate and the activate, deactivate, list and status commands read or
    update it.
  - The model is the class `Bot.BotState`. The gate's rule differs from the
    channel manager's rule; `Bot.GateIsStricter` and
    `Bot.FirstMessageShutsGuild` state the difference.
- **Interactive commands** (`advanced_commands.py`): the chat is a sequence
  of events. Each event is a message from some user in some channel, or the
  30-second wait running out.
  - The number-guessing game is a method with the source's
    `while attempts > 0` loop. It is proved equal to a recursive
    specification over the events, and the game's properties are proved
    about that specification.
  - Also modelled: the trivia answer check, the mood classifier and the
    `games` sub-command dispatch.
- **Response helpers** (`responses.py`): the hour-of-day buckets and the
  table lookups with their fallback texts.

Randomness is a parameter. `random.choice(xs)` is `Choice.Choose(xs, pick)`,
which returns `xs[pick % |xs|]`, and `random.randint(1, 10)` is
`Games.SecretNumber(draw)`. Every element of a table, and every number in the
range, can be drawn. The hour of day is also a parameter.

Files:
- `wrappers.dfy`: Option.
- `text.dfy`: lower-casing, substring containment, integer parsing, and the
  ordered keyword search.
- `choice.dfy`: the random draw.
- `activation.dfy`: the activation-map functions.
- `channel_settings.dfy`: the settings functions.
- `channel_manager.dfy`: the channel manager class.
- `bot.dfy`: the classifier and the `bot.py` store.
- `games.dfy`: the interactive commands.
- `responses.dfy`: the response helpers.

Four behaviours of the code are worth knowing:
- **A second game in the same room is not refused.** The code has no
  one-session-per-room guard.
- **An invalid guess does not reveal the number.** The code sends one error
  message shared with the timeout case, and that message does not contain
  the number.
- **A refused setting change can still change the stored map.** The code
  first stores a copy of the defaults for a channel that had no record, so
  that copy stays after a refusal. What any channel reads stays the same.
- **`bot.py`'s gate treats an empty list as shutting the guild.** It also
  stores an empty list the first time a guild is seen. The channel manager
  treats an empty list as opening every channel.

## Model

| member | source | states |
|---|---|---|
| Text.Lower | channel_manager.py:282 | `lower()`: same length; each character is lower-cased if it is an ASCII capital and otherwise kept |
| Text.LowerIdempotent | bot.py:135 | lower-casing a lower-cased text changes nothing |
| Text.Contains | bot.py:140 | `keyword in content` holds exactly when the keyword occurs at some position of the content |
| Text.ContainsInContext | bot.py:140 | a keyword found in a part of a message is found in the whole message |
| Text.ContainsIsNotEquality | advanced_commands.py:174 | containment is not equality: "7" is found in "17" |
| Text.ParseInt | channel_manager.py:294 | `int(value)` succeeds exactly on an optional sign followed by decimal digits; the result is non-negative without a minus sign and non-positive with one |
| Text.ParseIntRoundTrip | advanced_commands.py:138 | parsing the decimal text of any integer gives that integer back |
| Text.FirstKeyword | bot.py:139-143 | the inner loop finds the first keyword that occurs in the text, and finds none exactly when no keyword occurs |
| Text.FirstGroup | bot.py:138-146 | the nested loop with its `break`: the first group, in declared order, with a keyword in the text; every earlier group has none; no group exactly when no keyword of any group occurs |
| Text.FirstGroupPrecedence | bot.py:138-146 | when two groups both match, the answer is at or before the earlier one |
| Choice.Choose | responses.py:122 | `random.choice` returns an element of the list |
| Choice.ChooseReaches | responses.py:122 | every element of the list can be drawn |
| Activation.IsActiveOpenWorld | channel_manager.py:52-59 | a channel is active exactly when its guild has no list, an empty list, or a list containing the channel |
| Activation.RemoveFirst | channel_manager.py:143 | `list.remove`: the list is unchanged when the channel is absent; otherwise its first occurrence is cut out and the other entries keep their order |
| Activation.RemoveFirstDistinct | channel_manager.py:142-143 | removing a channel from a list without duplicates leaves it absent and the list without duplicates |
| Activation.Activate | channel_manager.py:109-113 | afterwards the guild is present and lists the channel; an already listed channel changes nothing; otherwise the channel is appended to the guild's list (an empty one if the guild had none); other guilds are untouched; no duplicates are created |
| Activation.Deactivate | channel_manager.py:142-143 | same guilds; other guilds untouched; nothing changes unless the guild lists the channel; the guild's list loses exactly one occurrence of the channel |
| Activation.Reset | channel_manager.py:327-333 | the guild's entry is removed from the activation map or the settings map; no other guild is removed or added, and every other guild keeps its entry unchanged |
| Activation.ActivateIdempotent | channel_manager.py:109-114 | after activation the channel is active, and activating again changes nothing |
| Activation.FirstActivationClosesGuild | channel_manager.py:109-113 | the first channel activated in a guild with no list, or an empty one, shuts every other channel of the guild |
| Activation.DeactivateUnlists | channel_manager.py:142-143 | after deactivation the channel is not listed and the list has no duplicates |
| Activation.DeactivateLastReopens | channel_manager.py:56-57 | deactivating the only listed channel opens every channel of the guild again |
| Activation.ActivateThenDeactivate | channel_manager.py:109-143 | activating an unlisted channel and then deactivating it leaves the map as before, except that an absent guild gains an empty list; every channel of every guild is then active exactly when it was before |
| Activation.UpdatesKeepDistinct | channel_manager.py:112-113 | activate, deactivate and reset keep every guild's list without duplicates |
| Activation.ResetReopens | channel_manager.py:327-328 | after a reset every channel of the guild is active, and a second reset changes nothing |
| Activation.ListLengths | channel_manager.py:123 | activation adds one to the guild's count of channels, and deactivation of a listed channel removes one |
| Activation.Resolvable | channel_manager.py:179-184 | the channels kept when listing are exactly the listed channels the platform knows, and there are no more of them than listed |
| ChannelSettings.GetSettings | channel_manager.py:66-76 | the stored record when one exists, otherwise the defaults (auto-react on, response chance 30, the other three on) |
| ChannelSettings.ParseKey | channel_manager.py:281-306 | a setting name is recognised exactly when it is one of the five names |
| ChannelSettings.KeyNameRoundTrip | channel_manager.py:281-292 | each of the five setting names is recognised as its own setting |
| ChannelSettings.ParseFlag | channel_manager.py:282-290 | a value means "on" exactly when its lower-cased form is true, 1, نعم or مفعل, means "off" exactly when it is false, 0, لا or معطل, and is refused otherwise |
| ChannelSettings.VocabulariesDisjoint | channel_manager.py:282-285 | no word is in both the "on" and the "off" vocabulary |
| ChannelSettings.FlagIsCaseInsensitive | channel_manager.py:282 | "TRUE" means on and "False" means off; "yes" is refused |
| ChannelSettings.Set | channel_manager.py:283 | storing a value changes the named field to it and leaves the other four fields unchanged |
| ChannelSettings.Materialise | channel_manager.py:273-276 | afterwards the channel has a stored record, and what every channel reads is unchanged |
| ChannelSettings.Validate | channel_manager.py:281-307 | an accepted update names the given setting with a value of that setting's kind, and a response chance in 1..100 |
| ChannelSettings.Customize | channel_manager.py:245-310 | no setting name shows the help and changes nothing; otherwise the channel's record is stored; on success the channel reads its old settings with only the named field replaced; other channels read as before; on refusal every channel reads as before |
| ChannelSettings.ChanceAcceptedIff | channel_manager.py:292-303 | response_chance is accepted exactly when the value parses as an integer in 1..100, which is then stored; non-integers and out-of-range integers get their own refusals |
| ChannelSettings.ChanceBoundsRefused | channel_manager.py:295-300 | 0 and 101 are refused as out of range, and what every channel reads is unchanged |
| ChannelSettings.FlagAcceptedIff | channel_manager.py:281-290 | a boolean setting is updated exactly when the value is in one of the two vocabularies, with the value's meaning |
| ChannelSettings.UnknownNameRefused | channel_manager.py:305-307 | any other non-empty name is refused as an unknown setting |
| ChannelSettings.CustomizeKeepsChancesInRange | channel_manager.py:292-300 | if every stored response chance is in 1..100, that stays so after any customize |
| ChannelSettings.ResetRestoresDefaults | channel_manager.py:327-334 | after a reset the guild's channels read the defaults, other guilds read as before, and a second reset changes nothing |
| ChannelManagerCog.ChannelManager.constructor | channel_manager.py:13-18 | starts from the two loaded documents, which are also the saved state |
| ChannelManagerCog.ChannelManager.IsChannelActive | channel_manager.py:46-59 | the open-world rule on the current activation map: active exactly when the guild lists no channel or lists this one; an absent guild is active everywhere |
| ChannelManagerCog.ChannelManager.GetChannelSettings | channel_manager.py:61-76 | the stored record, or the defaults when none is stored |
| ChannelManagerCog.ChannelManager.ActivateChannel | channel_manager.py:104-133 | the activation map becomes Activate of the old one; it answers "already active" exactly when the channel was listed, and otherwise the new number of listed channels; the file is rewritten only after a change; settings untouched |
| ChannelManagerCog.ChannelManager.DeactivateChannel | channel_manager.py:137-158 | the activation map becomes Deactivate of the old one; it answers "deactivated" exactly when the channel was listed; the file is rewritten only then; settings untouched |
| ChannelManagerCog.ChannelManager.ListChannels | channel_manager.py:162-197 | "all channels active" exactly when the guild has no list or an empty one; otherwise the listed channels the platform knows, in list order, each with its auto-react flag; "no valid channels" exactly when none is known |
| ChannelManagerCog.ChannelManager.CustomizeChannel | channel_manager.py:245-318 | the settings map and the answer are those of Customize; the settings file is rewritten only after a successful update; activation untouched |
| ChannelManagerCog.ChannelManager.ResetSettings | channel_manager.py:322-334 | both maps lose the guild, each file is rewritten only if it had the guild, and afterwards every channel of the guild is active with the default settings |
| Bot.Classify | bot.py:135-146 | the category whose keyword occurs in the lower-cased content and before which no declared category matches; none exactly when no category matches |
| Bot.ClassifyPrecedence | bot.py:75-82 | a message mentioning two categories gets an answer from the earlier-declared one, or from one declared before it |
| Bot.GreetingBeforeThanks | bot.py:76-77 | "مرحبا، شكرا" mentions thanks but is answered as a greeting |
| Bot.CannedResponse | bot.py:141 | the answer is one of the category's canned answers |
| Bot.GateIsStricter | bot.py:125 | whatever the gate lets through, the channel manager's rule calls active; the two disagree exactly on a guild whose list is empty |
| Bot.FirstMessageShutsGuild | bot.py:131-132 | a guild with no entry is open, but after the empty list is stored no channel of it passes the gate, although each is still active by the channel manager's rule |
| Bot.BotState.constructor | bot.py:98 | starts from the loaded document, which is also the saved state |
| Bot.BotState.OnMessage | bot.py:115-149 | the bot's own messages are dropped and every other message reaches command processing; an answer is sent exactly when the gate is open and a category matches, and it is one of that category's answers; an unseen guild (or "dm") gets an empty list, which is not saved |
| Bot.BotState.ActivateChannel | bot.py:210-223 | the map becomes Activate of the old one; it reports activation exactly when the channel was not listed, and only then saves |
| Bot.BotState.DeactivateChannel | bot.py:227-237 | the map becomes Deactivate of the old one; it reports deactivation exactly when the guild listed the channel, and only then saves |
| Bot.BotState.ListActiveChannels | bot.py:240-273 | "no active channels" exactly when the guild has no list or an empty one; otherwise the listed channels the platform knows, or the notice that none is valid |
| Bot.BotState.ActiveCount | bot.py:203 | the status count is the length of the guild's list, and 0 exactly when it has no list or an empty one |
| Bot.FreshGuildAnswersOnce | bot.py:122-132 | in a guild the bot has never seen, the same greeting is answered the first time and ignored the second time |
| Responses.DayPartOf | responses.py:109-116 | hours in [5,12) are morning, [12,17) afternoon, [17,22) evening, and every other hour night |
| Responses.DayPartSizes | responses.py:109-116 | the four parts split the 24 hours of a day into 7, 5, 5 and 7 hours |
| Responses.TimeBasedResponse | responses.py:104-116 | the greeting comes from the list of the part of the day the hour falls in |
| Responses.Lookup | responses.py:119-123 | a known key gives an element of its list and any other key the fallback; when the fallback is in no list, getting it means exactly that the key was unknown |
| Responses.LookupReachesAll | responses.py:121-122 | every element of a known key's list can be drawn |
| Responses.RandomResponse | responses.py:119-123 | a known category gives one of its texts; the answer is "أهلاً بك! 😊" exactly when the category is unknown |
| Responses.EmotionResponse | responses.py:126-130 | a known emotion gives one of its texts; the answer is "أفهم مشاعرك 💙" exactly when the emotion is unknown |
| Responses.RandomQuestion | responses.py:133-135 | the answer is one of the five questions |
| Responses.RandomEmoji | responses.py:149-153 | the category defaults to celebration; a known category gives one of its emoji; the answer is "😊" exactly when the category is unknown |
| Games.FirstAwaited | advanced_commands.py:131-137 | the wait ends at the first message from the player in the game's channel, or at the timeout; everything before it is someone else's message or in another channel |
| Games.FirstAwaitedIgnoresLater | advanced_commands.py:173 | what comes after the event that ends the wait does not move it |
| Games.SecretNumber | advanced_commands.py:128 | the secret is in 1..10 |
| Games.SecretNumberReachesAll | advanced_commands.py:128 | every number in 1..10 can be the secret |
| Games.PlayGuessing | advanced_commands.py:126-154 | the loop posts exactly the messages, and ends with exactly the outcome, that the guessing specification gives for the drawn number and the events |
| Games.GuessingShape | advanced_commands.py:134-154 | at most one message per attempt plus a closing one; every message before the last is a hint whose count of attempts left goes down by one each time; the last message matches the outcome; a loss comes after exactly one hint per attempt |
| Games.GuessingErrorsKeepSecret | advanced_commands.py:150-154 | a non-integer or a timeout ends the game with the one error message, and no message shows the number; a loss ends with the message that shows it |
| Games.GuessingLength | advanced_commands.py:134-148 | at most three guesses: the game posts the prompt and between one and four more messages, and a loss posts all five |
| Games.HintsFollowGuesses | advanced_commands.py:140-146 | the k-th hint answers the player's k-th message, which is an integer other than the number; the hint says "higher" exactly when the guess is below the number and "lower" exactly when it is above |
| Games.GuessingIgnoresOthers | advanced_commands.py:131-132 | other users' messages, and messages in other channels, do not change the game |
| Games.ExactGuessWins | advanced_commands.py:137-142 | any message of the player that `int()` reads as the number ends the game as a win at once, whatever attempts are left |
| Games.WritingTheNumberWins | advanced_commands.py:138-142 | writing the number out in decimal is such a message, so it wins at once |
| Games.NonIntegerEndsGame | advanced_commands.py:138-152 | a message of the player that `int()` refuses ends the game at once with the one error message, whatever attempts are left and whatever comes later |
| Games.TimeoutEndsGame | advanced_commands.py:137-152 | the wait running out, or no further message at all, ends the game at once with the one error message |
| Games.WrongGuessesLose | advanced_commands.py:135-154 | when every attempt is a message of the player that reads as an integer other than the number, the game is lost after one hint per attempt, and its last message shows the number |
| Games.GuessingExample | advanced_commands.py:134-148 | with the number 7 and the guesses 3, 9 and 7: "higher" with 2 left, "lower" with 1 left, then the win |
| Games.QuestionGame | advanced_commands.py:156-179 | the drawn question is asked; the player's first message is correct exactly when it contains the answer (both lower-cased) and wrong otherwise; a timeout gives the time-up message; both the wrong-answer and the time-up messages show the answer |
| Games.TriviaJudgesOneReply | advanced_commands.py:172-177 | exactly one message is judged: what follows it changes nothing |
| Games.TriviaAcceptsAnswer | advanced_commands.py:174-175 | writing the answer itself is always correct |
| Games.TriviaAcceptsContainingReply | advanced_commands.py:163-175 | "17" is accepted for the question whose answer is 7 |
| Games.EmotionKey | advanced_commands.py:80-89 | the emotions the mood check asks for all have answers, so it never gets the emotion fallback |
| Games.ClassifyMood | advanced_commands.py:76-90 | the first of happy, sad, excited and tired with a word in the lower-cased mood, all earlier ones having none; none exactly when no word of any group occurs |
| Games.MoodCheck | advanced_commands.py:69-101 | no mood, or an empty one, asks one of the daily questions; otherwise a matched emotion gets one of its texts and no match gets the fixed text |
| Games.MoodPrecedence | advanced_commands.py:79-90 | a mood matching two groups is answered as the earlier group, or one tried before it |
| Games.MoodFallbackIsDistinct | advanced_commands.py:91-92 | the fixed text is sent exactly when no emotion matches |
| Games.ChooseGame | advanced_commands.py:104-124 | no sub-command shows the menu; تخمين starts the guessing game, سؤال the trivia question and حظ the luck game, each exactly for that word; any other word does nothing |

## Left out

- Platform transport and rendering are not modelled: sending messages, embeds and their colours, mentions, presence, latency, the permission decorators, and the `channel_settings` display command (which only renders `get_channel_settings`). The models return abstract answer values instead. The platform's channel lookup is the parameter `known`, the set of channel ids it resolves; the `int(channel_id)` conversion before that lookup is not modelled.
- JSON load and save are not modelled. The ghost fields `savedActive`, `savedSettings` and `saved` record the state last written to the file. The constructors take the loaded documents as parameters. Loaded documents are assumed to have the shapes the program writes: lists of channel ids, and settings records with the five fields. A settings record with other keys or value types is not modelled.
- `bot.py` and `channel_manager.py` each hold their own activation map. The model keeps them as two independent stores, `Bot.BotState` and `ChannelManagerCog.ChannelManager`. The model does not link them to any shared state or file.
- `asyncio.wait_for` and its 30-second timer are not modelled. A timeout is an event in the input sequence, and the end of the sequence also counts as a timeout. Concurrent games are not modelled.
- `random` and `datetime.now` are not modelled. The draw and the hour are parameters, and the draw picks `list[pick % |list|]`.
- Text.ParseInt: handles only an optional `+`/`-` followed by ASCII digits. Python's `int()` also accepts surrounding whitespace, underscores between digits and non-ASCII digits, and the model does not.
- Text.Lower: lower-cases only ASCII capitals. Python's `str.lower` also lower-cases other cased scripts. Every vocabulary here is ASCII or Arabic, and Arabic has no case.
- ChannelSettings.Customize: the value is a plain string. The source crashes when a setting name is given without a value; that crash is not modelled.
- `luck_game`, `prayer`, `user_stats` and `current_time` are not modelled: they are only random picks and date formatting. `games` still dispatches to the luck game.
- `motivation` and `wisdom` are not modelled separately. They only pair `get_random_response` with `get_random_emoji`, and both are modelled.
- The bootstrap is not modelled: `keep_alive`, `.env` loading, `main`, extension loading, `on_ready` and `on_command_error`. `test_bot.py` is also not part of this model.
