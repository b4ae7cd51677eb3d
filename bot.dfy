/**
 * bot.py: the keyword classifier over KEYWORDS, the canned answers of
 * ARABIC_RESPONSES, and the module-level activation dictionary with the
 * `on_message` gate and the activate, deactivate, list and status commands
 * that update or read it. This dictionary is separate from the channel
 * manager's, and its gate follows a different rule (see GateIsStricter).
 */
module Bot {
  import opened Wrappers
  import opened Text
  import opened Activation
  import opened Choice

  type UserId = string

  datatype Category = Greetings | Thanks | GoodMorning | GoodEvening | Encouragement | Help

  /** KEYWORDS, in declaration order; this order is the classifier's priority. */
  const KEYWORDS: seq<(Category, seq<string>)> := [
    (Greetings, ["مرحبا", "أهلا", "السلام عليكم", "هلا", "اهلين", "مرحباً", "أهلاً"]),
    (Thanks, ["شكرا", "شكراً", "مشكور", "يعطيك العافية", "الله يعطيك العافية"]),
    (GoodMorning, ["صباح الخير", "صباح النور", "صباحكم خير"]),
    (GoodEvening, ["مساء الخير", "مساء النور", "مساءكم خير"]),
    (Encouragement, ["أحسنت", "ممتاز", "رائع", "جميل", "مبدع"]),
    (Help, ["مساعدة", "ساعدني", "أحتاج مساعدة", "كيف"])
  ]

  /** A category's position in KEYWORDS. */
  function Rank(c: Category): (i: nat)
    ensures i < |KEYWORDS| && KEYWORDS[i].0 == c
  {
    match c
    case Greetings => 0
    case Thanks => 1
    case GoodMorning => 2
    case GoodEvening => 3
    case Encouragement => 4
    case Help => 5
  }

  /** Every position of KEYWORDS is the rank of the category declared there. */
  lemma RankOnto(i: nat)
    requires i < |KEYWORDS|
    ensures Rank(KEYWORDS[i].0) == i
  {
  }

  function Keywords(c: Category): seq<string>
  {
    KEYWORDS[Rank(c)].1
  }

  /** Some keyword of the category occurs in the text. */
  predicate Mentions(text: string, c: Category)
  {
    AnyKeyword(text, Keywords(c))
  }

  /**
   * The nested search of `on_message`: the lower-cased content is tested
   * against the categories in declared order, and the first category with a
   * keyword that occurs in it is the answer.
   */
  function Classify(content: string): (r: Option<Category>)
    ensures r.Some? ==> (Mentions(Lower(content), r.value)
      && forall c :: Rank(c) < Rank(r.value) ==> !Mentions(Lower(content), c))
    ensures r.None? <==> forall c :: !Mentions(Lower(content), c)
  {
    var text := Lower(content);
    var found := FirstGroup(KEYWORDS, text);
    if found.None? then
      assert forall c :: !Mentions(text, c) by {
        forall c ensures !Mentions(text, c) { assert Rank(c) < |KEYWORDS|; }
      }
      None
    else
      RankOnto(found.value);
      Some(KEYWORDS[found.value].0)
  }

  /** Two categories mentioned in one message: the earlier-declared one, or one before it, wins. */
  lemma ClassifyPrecedence(content: string, a: Category, b: Category)
    requires Rank(a) < Rank(b)
    requires Mentions(Lower(content), a) && Mentions(Lower(content), b)
    ensures Classify(content).Some?
    ensures Classify(content) != Some(b)
    ensures Rank(Classify(content).value) <= Rank(a)
  {
  }

  /** "مرحبا، شكرا" greets and thanks; the greeting, declared first, is the answer. */
  lemma GreetingBeforeThanks()
    ensures Mentions(Lower("مرحبا، شكرا"), Thanks)
    ensures Classify("مرحبا، شكرا") == Some(Greetings)
  {
    var text := "مرحبا، شكرا";
    LowerFixesUncased(text);
    assert OccursAt(text, "شكرا", 7);
    assert Contains(text, Keywords(Thanks)[0]);
    assert OccursAt(text, "مرحبا", 0);
    assert Contains(text, Keywords(Greetings)[0]);
  }

  /** ARABIC_RESPONSES: the canned answers of each category. */
  function Responses(c: Category): (r: seq<string>)
    ensures |r| > 0
  {
    match c
    case Greetings => ["أهلاً وسهلاً! 👋", "مرحباً بك! 😊", "السلام عليكم ورحمة الله وبركاته! 🌟",
                       "أهلاً بك في الخادم! 🎉", "مرحباً! كيف حالك اليوم؟ 😄"]
    case Thanks => ["العفو! 😊", "لا شكر على واجب! 💙", "أهلاً وسهلاً! 🌟", "دائماً في الخدمة! 👍", "بالتوفيق! ✨"]
    case GoodMorning => ["صباح الخير! ☀️", "صباح النور! 🌅", "صباحك سعيد! 😊", "أسعد الله صباحك! 🌸", "صباح الورد! 🌹"]
    case GoodEvening => ["مساء الخير! 🌙", "مساء النور! ⭐", "مساءك سعيد! 😊", "أسعد الله مساءك! 🌆", "مساء الورد! 🌺"]
    case Encouragement => ["أحسنت! 👏", "ممتاز! 🌟", "رائع جداً! 🎉", "واصل التميز! 💪", "أنت مبدع! ✨"]
    case Help => ["كيف يمكنني مساعدتك؟ 🤔", "أنا هنا للمساعدة! 💙", "ما الذي تحتاج إليه؟ 😊", "تفضل، كيف أساعدك؟ 🙋‍♂️"]
  }

  /** `random.choice(ARABIC_RESPONSES[c])`, the random draw given as `pick`. */
  function CannedResponse(c: Category, pick: nat): (r: string)
    ensures r in Responses(c)
  {
    Choose(Responses(c), pick)
  }

  // ---------------------------------------------------------------------
  // The gate of on_message
  // ---------------------------------------------------------------------

  /** The guild key of a message; direct messages use the sentinel "dm". */
  const DirectMessages: GuildId := "dm"

  datatype Message = Message(author: UserId, guild: Option<GuildId>, channel: ChannelId, content: string)

  function GuildKey(msg: Message): GuildId
  {
    if msg.guild.Some? then msg.guild.value else DirectMessages
  }

  /**
   * bot.py's gate: a message is classified unless its guild has an entry
   * that does not list its channel. An entry with an empty list therefore
   * shuts every channel of the guild.
   */
  predicate GateOpen(m: ActiveMap, g: GuildId, c: ChannelId)
  {
    !(g in m && c !in m[g])
  }

  /**
   * The gate is stricter than the channel manager's rule, and the two
   * disagree exactly on a guild whose entry is an empty list.
   */
  lemma GateIsStricter(m: ActiveMap, g: GuildId, c: ChannelId)
    ensures GateOpen(m, g, c) ==> IsActive(m, g, c)
    ensures IsActive(m, g, c) && !GateOpen(m, g, c) <==> g in m && m[g] == []
  {
  }

  /**
   * A guild with no entry is open, but the first message classified there
   * stores an empty list for it, after which the gate is shut for every
   * channel of that guild, although the channel manager's rule would still
   * call them all active.
   */
  lemma FirstMessageShutsGuild(m: ActiveMap, g: GuildId, c: ChannelId, later: ChannelId)
    requires g !in m
    ensures GateOpen(m, g, c)
    ensures !GateOpen(m[g := []], g, later)
    ensures IsActive(m[g := []], g, later)
  {
  }

  /** What the list command of bot.py answers. */
  datatype ActiveListing =
    | NoActiveChannels                    // no list, or an empty one
    | Channels(channels: seq<ChannelId>)  // the listed channels the platform still knows
    | NoResolvableChannels                // a list none of whose channels the platform knows

  /** The bot's own user and bot.py's module-level `active_channels`. */
  class BotState {
    const botUser: UserId
    var activeChannels: ActiveMap
    ghost var saved: ActiveMap

    constructor (botUser: UserId, loaded: ActiveMap)
      ensures this.botUser == botUser
      ensures activeChannels == loaded && saved == loaded
    {
      this.botUser := botUser;
      activeChannels, saved := loaded, loaded;
    }

    /**
     * `on_message`. The bot's own messages are dropped. Any other message is
     * handed to command processing; before that, if the gate is open, an
     * empty list is stored for a guild with no entry (without saving it) and
     * at most one canned answer of the first matching category is sent.
     */
    method OnMessage(msg: Message, pick: nat) returns (reply: Option<string>, processed: bool)
      modifies this
      ensures processed <==> msg.author != botUser
      ensures reply.Some? <==> (msg.author != botUser
        && GateOpen(old(activeChannels), GuildKey(msg), msg.channel) && Classify(msg.content).Some?)
      ensures reply.Some? ==> reply.value in Responses(Classify(msg.content).value)
      ensures activeChannels == if msg.author != botUser && GuildKey(msg) !in old(activeChannels)
                                then old(activeChannels)[GuildKey(msg) := []]
                                else old(activeChannels)
      ensures saved == old(saved)
    {
      if msg.author == botUser {
        return None, false;
      }
      var g := if msg.guild.Some? then msg.guild.value else DirectMessages;
      var c := msg.channel;
      if g in activeChannels && c !in activeChannels[g] {
        return None, true;
      }
      if g !in activeChannels {
        activeChannels := activeChannels[g := []];
      }
      var category := Classify(msg.content);
      if category.Some? {
        reply := Some(CannedResponse(category.value, pick));
      } else {
        reply := None;
      }
      processed := true;
    }

    /** `activate_channel`: the same list update as the channel manager's, on this dictionary. */
    method ActivateChannel(g: GuildId, c: ChannelId) returns (activated: bool)
      modifies this
      ensures activeChannels == Activate(old(activeChannels), g, c)
      ensures activated <==> c !in Listed(old(activeChannels), g)
      ensures saved == if activated then activeChannels else old(saved)
    {
      if g !in activeChannels {
        activeChannels := activeChannels[g := []];
      }
      activated := c !in activeChannels[g];
      if activated {
        activeChannels := activeChannels[g := activeChannels[g] + [c]];
        saved := activeChannels;
      }
    }

    /** `deactivate_channel`: remove the channel when the guild exists and lists it. */
    method DeactivateChannel(g: GuildId, c: ChannelId) returns (deactivated: bool)
      modifies this
      ensures activeChannels == Deactivate(old(activeChannels), g, c)
      ensures deactivated <==> c in Listed(old(activeChannels), g)
      ensures saved == if deactivated then activeChannels else old(saved)
    {
      DeactivateCases(activeChannels, g, c);
      deactivated := g in activeChannels && c in activeChannels[g];
      if deactivated {
        activeChannels := activeChannels[g := RemoveFirst(activeChannels[g], c)];
        saved := activeChannels;
      }
    }

    /** `list_active_channels`: "none" for no list or an empty one, otherwise the resolvable listed channels. */
    method ListActiveChannels(g: GuildId, known: set<ChannelId>) returns (listing: ActiveListing)
      ensures listing == NoActiveChannels <==> Listed(activeChannels, g) == []
      ensures listing.Channels? ==>
        listing.channels != [] && listing.channels == Resolvable(Listed(activeChannels, g), known)
      ensures listing == NoResolvableChannels <==>
        Listed(activeChannels, g) != [] && Resolvable(Listed(activeChannels, g), known) == []
    {
      if g !in activeChannels || activeChannels[g] == [] {
        return NoActiveChannels;
      }
      var listed := activeChannels[g];
      var found: seq<ChannelId> := [];
      for i := 0 to |listed|
        invariant found == Resolvable(listed[..i], known)
      {
        ResolvableStep(listed, i, known);
        if listed[i] in known {
          found := found + [listed[i]];
        }
      }
      assert listed[..|listed|] == listed;
      listing := if found != [] then Channels(found) else NoResolvableChannels;
    }

    /** The count shown by `status_command`: the length of the guild's list, 0 without one. */
    function ActiveCount(g: GuildId): (n: nat)
      reads this
      ensures n == |Listed(activeChannels, g)|
      ensures n == 0 <==> g !in activeChannels || activeChannels[g] == []
    {
      if g in activeChannels then |activeChannels[g]| else 0
    }
  }

  /**
   * Two greetings in a guild that never activated a channel: the first one
   * is answered, the second one is not.
   */
  method FreshGuildAnswersOnce(me: UserId, user: UserId, g: GuildId, c: ChannelId)
    returns (first: Option<string>, second: Option<string>)
    requires user != me
    ensures first.Some? && second.None?
  {
    var bot := new BotState(me, map[]);
    GreetingBeforeThanks();
    var msg := Message(user, Some(g), c, "مرحبا، شكرا");
    var processed;
    first, processed := bot.OnMessage(msg, 0);
    second, processed := bot.OnMessage(msg, 1);
  }
}
