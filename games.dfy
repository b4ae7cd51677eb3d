/**
 * advanced_commands.py: the number-guessing game, the trivia question, the
 * mood check and the `games` sub-command dispatch. The chat is a sequence of
 * events: a message someone posts, or the 30-second wait running out. The
 * end of the sequence also counts as the wait running out. `wait_for` with
 * its `check` is FirstAwaited: it passes over messages from other people or
 * other channels. Random draws are parameters.
 */
module Games {
  import opened Wrappers
  import opened Text
  import opened Choice
  import opened Responses

  type UserId = string
  type ChannelId = string

  datatype Event = Reply(author: UserId, channel: ChannelId, text: string) | Timeout

  /** The `check` of both games: a message by the player in the room the game started in. */
  predicate FromPlayer(e: Event, player: UserId, room: ChannelId)
  {
    e.Reply? && e.author == player && e.channel == room
  }

  /** An event that ends a `wait_for`: the player's message, or the timeout. */
  predicate Awaited(e: Event, player: UserId, room: ChannelId)
  {
    e.Timeout? || FromPlayer(e, player, room)
  }

  /**
   * `wait_for('message', check=check, timeout=30)`: the position of the
   * first event that ends the wait, or |events| when none does.
   */
  function FirstAwaited(events: seq<Event>, player: UserId, room: ChannelId): (i: nat)
    ensures i <= |events|
    ensures forall j :: 0 <= j < i ==> !Awaited(events[j], player, room)
    ensures i < |events| ==> Awaited(events[i], player, room)
    decreases |events|
  {
    if events == [] then 0
    else if Awaited(events[0], player, room) then 0
    else 1 + FirstAwaited(events[1..], player, room)
  }

  /** Events after the one that ends the wait do not change where it ends. */
  lemma {:induction false} FirstAwaitedIgnoresLater(events: seq<Event>, later: seq<Event>, player: UserId, room: ChannelId)
    requires FirstAwaited(events, player, room) < |events|
    ensures FirstAwaited(events + later, player, room) == FirstAwaited(events, player, room)
    decreases |events|
  {
    if !Awaited(events[0], player, room) {
      assert (events + later)[1..] == events[1..] + later;
      FirstAwaitedIgnoresLater(events[1..], later, player, room);
    }
  }

  // ---------------------------------------------------------------------
  // Number guessing
  // ---------------------------------------------------------------------

  const MaxAttempts: nat := 3
  const Lowest: int := 1
  const Highest: int := 10

  /** `random.randint(1, 10)`, the draw given as a parameter. */
  function SecretNumber(draw: nat): (n: int)
    ensures Lowest <= n <= Highest
  {
    Lowest + draw % (Highest - Lowest + 1)
  }

  /** Every number of the range can be drawn. */
  lemma SecretNumberReachesAll(n: int)
    requires Lowest <= n <= Highest
    ensures SecretNumber((n - Lowest) as nat) == n
  {
  }

  /** What the game posts: the prompt, a hint with the attempts left, or a closing message. */
  datatype Note =
    | Prompt
    | GoHigher(left: nat)
    | GoLower(left: nat)
    | Congrats(number: int)
    | OutOfAttempts(number: int)
    | InvalidOrTimeout

  datatype GuessOutcome = Won | Lost | InvalidGuess | TimedOut

  datatype Transcript = Transcript(notes: seq<Note>, outcome: GuessOutcome)

  predicate IsHint(n: Note)
  {
    n.GoHigher? || n.GoLower?
  }

  /** A message that shows the secret number. */
  predicate Reveals(n: Note)
  {
    n.Congrats? || n.OutOfAttempts?
  }

  /** The message that closes a game with the given outcome. */
  function Closing(o: GuessOutcome, number: int): Note
  {
    match o
    case Won => Congrats(number)
    case Lost => OutOfAttempts(number)
    case InvalidGuess => InvalidOrTimeout
    case TimedOut => InvalidOrTimeout
  }

  /**
   * The rest of the game with `attempts` attempts left: what the loop posts
   * from here on, and how it ends.
   */
  function Guessing(number: int, player: UserId, room: ChannelId, attempts: nat, events: seq<Event>): Transcript
    decreases |events|
  {
    if attempts == 0 then Transcript([OutOfAttempts(number)], Lost)
    else if events == [] || events[0].Timeout? then Transcript([InvalidOrTimeout], TimedOut)
    else if !FromPlayer(events[0], player, room) then Guessing(number, player, room, attempts, events[1..])
    else
      match ParseInt(events[0].text)
      case None => Transcript([InvalidOrTimeout], InvalidGuess)
      case Some(guess) =>
        if guess == number then Transcript([Congrats(number)], Won)
        else
          var hint := if guess < number then GoHigher(attempts - 1) else GoLower(attempts - 1);
          var rest := Guessing(number, player, room, attempts - 1, events[1..]);
          Transcript([hint] + rest.notes, rest.outcome)
  }

  /** The whole game: the prompt, then three attempts at the drawn number. */
  function GuessingGame(draw: nat, player: UserId, room: ChannelId, events: seq<Event>): Transcript
  {
    var rest := Guessing(SecretNumber(draw), player, room, MaxAttempts, events);
    Transcript([Prompt] + rest.notes, rest.outcome)
  }

  /**
   * `guessing_game`: the `while attempts > 0` loop. Each pass waits for the
   * player's next message, ends the game on a timeout, a message that is not
   * an integer or the right number, and otherwise posts a hint and spends an
   * attempt.
   */
  method PlayGuessing(draw: nat, player: UserId, room: ChannelId, events: seq<Event>)
    returns (notes: seq<Note>, outcome: GuessOutcome)
    ensures Transcript(notes, outcome) == GuessingGame(draw, player, room, events)
  {
    var number := SecretNumber(draw);
    ghost var whole := Guessing(number, player, room, MaxAttempts, events);
    notes := [Prompt];
    var attempts: nat := MaxAttempts;
    var i := 0;
    while attempts > 0
      invariant i <= |events|
      invariant notes + Guessing(number, player, room, attempts, events[i..]).notes == [Prompt] + whole.notes
      invariant Guessing(number, player, room, attempts, events[i..]).outcome == whole.outcome
      decreases attempts
    {
      while i < |events| && !Awaited(events[i], player, room)
        invariant i <= |events|
        invariant notes + Guessing(number, player, room, attempts, events[i..]).notes == [Prompt] + whole.notes
        invariant Guessing(number, player, room, attempts, events[i..]).outcome == whole.outcome
        decreases |events| - i
      {
        assert events[i..][1..] == events[i + 1..];
        i := i + 1;
      }
      if i == |events| || events[i].Timeout? {
        notes := notes + [InvalidOrTimeout];
        outcome := TimedOut;
        return;
      }
      assert events[i..][0] == events[i] && events[i..][1..] == events[i + 1..];
      var guess := ParseInt(events[i].text);
      if guess.None? {
        notes := notes + [InvalidOrTimeout];
        outcome := InvalidGuess;
        return;
      }
      if guess.value == number {
        notes := notes + [Congrats(number)];
        outcome := Won;
        return;
      }
      var hint := if guess.value < number then GoHigher(attempts - 1) else GoLower(attempts - 1);
      ghost var rest := Guessing(number, player, room, attempts - 1, events[i + 1..]);
      assert notes + ([hint] + rest.notes) == (notes + [hint]) + rest.notes;
      notes := notes + [hint];
      attempts := attempts - 1;
      i := i + 1;
    }
    notes := notes + [OutOfAttempts(number)];
    outcome := Lost;
  }

  /**
   * The shape of every game: at most one message per attempt plus a closing
   * one; every message before the last is a hint counting the attempts
   * down; the last one matches the outcome; a loss comes after exactly one
   * hint per attempt.
   */
  lemma {:induction false} GuessingShape(number: int, player: UserId, room: ChannelId, attempts: nat, events: seq<Event>)
    ensures var t := Guessing(number, player, room, attempts, events);
      && 1 <= |t.notes| <= attempts + 1
      && (forall k :: 0 <= k < |t.notes| - 1 ==> IsHint(t.notes[k]) && t.notes[k].left == attempts - 1 - k)
      && t.notes[|t.notes| - 1] == Closing(t.outcome, number)
      && (t.outcome == Lost ==> |t.notes| == attempts + 1)
    decreases |events|
  {
    if attempts == 0 || events == [] || events[0].Timeout? {
    } else if !FromPlayer(events[0], player, room) {
      GuessingShape(number, player, room, attempts, events[1..]);
    } else if ParseInt(events[0].text).Some? && ParseInt(events[0].text).value != number {
      GuessingShape(number, player, room, attempts - 1, events[1..]);
    }
  }

  /**
   * A message that is not an integer, or a timeout, ends the game with the
   * one error message, and nothing posted shows the number; a loss ends
   * with the message that shows it.
   */
  lemma GuessingErrorsKeepSecret(draw: nat, player: UserId, room: ChannelId, events: seq<Event>)
    ensures var t := GuessingGame(draw, player, room, events);
      && (t.outcome == InvalidGuess || t.outcome == TimedOut ==>
            t.notes[|t.notes| - 1] == InvalidOrTimeout && forall k :: 0 <= k < |t.notes| ==> !Reveals(t.notes[k]))
      && (t.outcome == Lost ==> t.notes[|t.notes| - 1] == OutOfAttempts(SecretNumber(draw)))
      && (t.outcome == Won ==> t.notes[|t.notes| - 1] == Congrats(SecretNumber(draw)))
  {
    GuessingShape(SecretNumber(draw), player, room, MaxAttempts, events);
  }

  /** At most three guesses: the game posts between two and five messages, and a loss posts five. */
  lemma GuessingLength(draw: nat, player: UserId, room: ChannelId, events: seq<Event>)
    ensures var t := GuessingGame(draw, player, room, events);
      && 2 <= |t.notes| <= MaxAttempts + 2
      && t.notes[0] == Prompt
      && (t.outcome == Lost ==> |t.notes| == MaxAttempts + 2)
  {
    GuessingShape(SecretNumber(draw), player, room, MaxAttempts, events);
  }

  /** The texts of the player's messages in the room, up to the first timeout. */
  function PlayerTexts(events: seq<Event>, player: UserId, room: ChannelId): seq<string>
    decreases |events|
  {
    if events == [] || events[0].Timeout? then []
    else if FromPlayer(events[0], player, room) then [events[0].text] + PlayerTexts(events[1..], player, room)
    else PlayerTexts(events[1..], player, room)
  }

  /**
   * The k-th hint answers the player's k-th message: that message is an
   * integer other than the number, and the hint says "higher" exactly when
   * it is below the number.
   */
  lemma {:induction false} HintsFollowGuesses(number: int, player: UserId, room: ChannelId, attempts: nat, events: seq<Event>, k: nat)
    requires k < |Guessing(number, player, room, attempts, events).notes| - 1
    ensures var texts := PlayerTexts(events, player, room);
      && k < |texts| && ParseInt(texts[k]).Some? && ParseInt(texts[k]).value != number
      && var note := Guessing(number, player, room, attempts, events).notes[k];
        (note.GoHigher? <==> ParseInt(texts[k]).value < number)
        && (note.GoLower? <==> ParseInt(texts[k]).value > number)
    decreases |events|
  {
    if attempts == 0 || events == [] || events[0].Timeout? {
    } else if !FromPlayer(events[0], player, room) {
      HintsFollowGuesses(number, player, room, attempts, events[1..], k);
    } else if k > 0 {
      HintsFollowGuesses(number, player, room, attempts - 1, events[1..], k - 1);
    }
  }

  /** Replies from other people, or in other rooms, change nothing in the game. */
  function OnlyPlayer(events: seq<Event>, player: UserId, room: ChannelId): (r: seq<Event>)
    ensures forall j :: 0 <= j < |r| ==> Awaited(r[j], player, room)
    decreases |events|
  {
    if events == [] then []
    else if Awaited(events[0], player, room) then [events[0]] + OnlyPlayer(events[1..], player, room)
    else OnlyPlayer(events[1..], player, room)
  }

  lemma {:induction false} GuessingIgnoresOthers(number: int, player: UserId, room: ChannelId, attempts: nat, events: seq<Event>)
    ensures Guessing(number, player, room, attempts, events)
         == Guessing(number, player, room, attempts, OnlyPlayer(events, player, room))
    decreases |events|
  {
    if events == [] {
    } else if !Awaited(events[0], player, room) {
      GuessingIgnoresOthers(number, player, room, attempts, events[1..]);
    } else {
      var filtered := OnlyPlayer(events, player, room);
      assert filtered[0] == events[0] && filtered[1..] == OnlyPlayer(events[1..], player, room);
      if attempts > 0 {
        GuessingIgnoresOthers(number, player, room, attempts - 1, events[1..]);
      }
    }
  }

  /** Any message that `int()` reads as the number wins at once, whatever attempts are left. */
  lemma ExactGuessWins(number: int, player: UserId, room: ChannelId, attempts: nat, text: string, later: seq<Event>)
    requires attempts > 0 && ParseInt(text) == Some(number)
    ensures Guessing(number, player, room, attempts, [Reply(player, room, text)] + later)
         == Transcript([Congrats(number)], Won)
  {
    assert ([Reply(player, room, text)] + later)[0] == Reply(player, room, text);
  }

  /** In particular, writing out the number in decimal wins. */
  lemma WritingTheNumberWins(number: int, player: UserId, room: ChannelId, attempts: nat, later: seq<Event>)
    requires attempts > 0
    ensures Guessing(number, player, room, attempts, [Reply(player, room, IntToString(number))] + later)
         == Transcript([Congrats(number)], Won)
  {
    ParseIntRoundTrip(number);
    ExactGuessWins(number, player, room, attempts, IntToString(number), later);
  }

  /** A message from the player that is not an integer ends the game at once with the error message. */
  lemma NonIntegerEndsGame(number: int, player: UserId, room: ChannelId, attempts: nat, text: string, later: seq<Event>)
    requires attempts > 0 && ParseInt(text).None?
    ensures Guessing(number, player, room, attempts, [Reply(player, room, text)] + later)
         == Transcript([InvalidOrTimeout], InvalidGuess)
  {
    assert ([Reply(player, room, text)] + later)[0] == Reply(player, room, text);
  }

  /** The wait running out ends the game at once with the error message. */
  lemma TimeoutEndsGame(number: int, player: UserId, room: ChannelId, attempts: nat, later: seq<Event>)
    requires attempts > 0
    ensures Guessing(number, player, room, attempts, [Timeout] + later) == Transcript([InvalidOrTimeout], TimedOut)
    ensures Guessing(number, player, room, attempts, []) == Transcript([InvalidOrTimeout], TimedOut)
  {
    assert ([Timeout] + later)[0] == Timeout;
  }

  /** The first `n` events are the player's messages, each an integer other than the number. */
  predicate WrongGuesses(number: int, player: UserId, room: ChannelId, events: seq<Event>, n: nat)
  {
    n <= |events|
    && forall k :: 0 <= k < n ==>
         FromPlayer(events[k], player, room) && ParseInt(events[k].text).Some? && ParseInt(events[k].text).value != number
  }

  /**
   * A wrong guess on every attempt loses: one hint per guess, then the
   * message that shows the number.
   */
  lemma {:induction false} WrongGuessesLose(number: int, player: UserId, room: ChannelId, attempts: nat, events: seq<Event>)
    requires WrongGuesses(number, player, room, events, attempts)
    ensures var t := Guessing(number, player, room, attempts, events);
      && t.outcome == Lost
      && |t.notes| == attempts + 1
      && t.notes[attempts] == OutOfAttempts(number)
    decreases attempts
  {
    if attempts > 0 {
      assert FromPlayer(events[0], player, room);
      assert WrongGuesses(number, player, room, events[1..], attempts - 1) by {
        forall k | 0 <= k < attempts - 1
          ensures events[1..][k] == events[k + 1]
        {
        }
      }
      WrongGuessesLose(number, player, room, attempts - 1, events[1..]);
    }
  }

  /** Number 7; the player writes 3, then 9, then 7. */
  lemma GuessingExample(player: UserId, room: ChannelId)
    ensures GuessingGame(6, player, room, [Reply(player, room, "3"), Reply(player, room, "9"), Reply(player, room, "7")])
         == Transcript([Prompt, GoHigher(2), GoLower(1), Congrats(7)], Won)
  {
    assert ParseInt("3") == Some(3) by { assert IntToString(3) == "3"; ParseIntRoundTrip(3); }
    assert ParseInt("9") == Some(9) by { assert IntToString(9) == "9"; ParseIntRoundTrip(9); }
    assert ParseInt("7") == Some(7) by { assert IntToString(7) == "7"; ParseIntRoundTrip(7); }
    var e := [Reply(player, room, "3"), Reply(player, room, "9"), Reply(player, room, "7")];
    assert SecretNumber(6) == 7;
    assert e[1..][1..] == [Reply(player, room, "7")];
    assert Guessing(7, player, room, 1, e[1..][1..]) == Transcript([Congrats(7)], Won);
    assert Guessing(7, player, room, 2, e[1..]) == Transcript([GoLower(1), Congrats(7)], Won);
    assert Guessing(7, player, room, 3, e) == Transcript([GoHigher(2), GoLower(1), Congrats(7)], Won);
  }

  // ---------------------------------------------------------------------
  // Trivia
  // ---------------------------------------------------------------------

  datatype Trivia = Trivia(question: string, answer: string)

  /** The five questions of `question_game`. */
  const TRIVIA: seq<Trivia> := [
    Trivia("ما هي عاصمة السعودية؟", "الرياض"),
    Trivia("كم عدد أيام السنة؟", "365"),
    Trivia("ما هو أكبر محيط في العالم؟", "الهادئ"),
    Trivia("في أي قارة تقع مصر؟", "أفريقيا"),
    Trivia("كم عدد ألوان قوس قزح؟", "7")
  ]

  datatype TriviaNote = Asked(question: string) | Correct | Wrong(answer: string) | TimeUp(answer: string)

  /** The answer check: the lower-cased answer occurs somewhere in the lower-cased reply. */
  predicate AnswerMatches(answer: string, reply: string)
  {
    Contains(Lower(reply), Lower(answer))
  }

  /**
   * `question_game`: ask the drawn question, wait for one message from the
   * player, and judge it; the wrong-answer and timeout messages give the
   * answer.
   */
  function QuestionGame(draw: nat, player: UserId, room: ChannelId, events: seq<Event>): (notes: seq<TriviaNote>)
    ensures |notes| == 2 && notes[0] == Asked(Choose(TRIVIA, draw).question)
    ensures var answer := Choose(TRIVIA, draw).answer;
      var i := FirstAwaited(events, player, room);
      && (notes[1] == Correct <==> i < |events| && events[i].Reply? && AnswerMatches(answer, events[i].text))
      && (notes[1] == Wrong(answer) <==> i < |events| && events[i].Reply? && !AnswerMatches(answer, events[i].text))
      && (notes[1] == TimeUp(answer) <==> i == |events| || events[i].Timeout?)
  {
    var t := Choose(TRIVIA, draw);
    var i := FirstAwaited(events, player, room);
    var verdict :=
      if i == |events| || events[i].Timeout? then TimeUp(t.answer)
      else if AnswerMatches(t.answer, events[i].text) then Correct
      else Wrong(t.answer);
    [Asked(t.question), verdict]
  }

  /** Exactly one message is judged: whatever comes after it changes nothing. */
  lemma TriviaJudgesOneReply(draw: nat, player: UserId, room: ChannelId, events: seq<Event>, later: seq<Event>)
    requires FirstAwaited(events, player, room) < |events|
    ensures QuestionGame(draw, player, room, events + later) == QuestionGame(draw, player, room, events)
  {
    var i := FirstAwaited(events, player, room);
    FirstAwaitedIgnoresLater(events, later, player, room);
    assert (events + later)[i] == events[i];
  }

  /** Writing the answer itself is always accepted. */
  lemma TriviaAcceptsAnswer(draw: nat, player: UserId, room: ChannelId, later: seq<Event>)
    ensures QuestionGame(draw, player, room, [Reply(player, room, Choose(TRIVIA, draw).answer)] + later)[1] == Correct
  {
    var events := [Reply(player, room, Choose(TRIVIA, draw).answer)] + later;
    assert FirstAwaited(events, player, room) == 0;
    ContainsSelf(Lower(Choose(TRIVIA, draw).answer));
  }

  /** Containment, not equality: "17" is accepted for the rainbow question, whose answer is "7". */
  lemma TriviaAcceptsContainingReply(player: UserId, room: ChannelId)
    ensures QuestionGame(4, player, room, [Reply(player, room, "17")]) == [Asked("كم عدد ألوان قوس قزح؟"), Correct]
  {
    assert Choose(TRIVIA, 4) == TRIVIA[4];
    LowerFixesUncased("17");
    LowerFixesUncased("7");
    ContainsIsNotEquality();
  }

  // ---------------------------------------------------------------------
  // Mood check
  // ---------------------------------------------------------------------

  datatype Emotion = Happy | Sad | Excited | Tired

  /** The keyword groups of `mood_check`, in the order they are tried. */
  const MOOD_WORDS: seq<(Emotion, seq<string>)> := [
    (Happy, ["سعيد", "فرحان", "مبسوط", "رائع"]),
    (Sad, ["حزين", "زعلان", "مكتئب", "تعبان"]),
    (Excited, ["متحمس", "نشيط", "حماسي", "متفائل"]),
    (Tired, ["متعب", "مرهق", "نعسان", "كسلان"])
  ]

  function MoodRank(e: Emotion): (i: nat)
    ensures i < |MOOD_WORDS| && MOOD_WORDS[i].0 == e
  {
    match e
    case Happy => 0
    case Sad => 1
    case Excited => 2
    case Tired => 3
  }

  /** Every position of MOOD_WORDS is the rank of the emotion listed there. */
  lemma MoodRankOnto(i: nat)
    requires i < |MOOD_WORDS|
    ensures MoodRank(MOOD_WORDS[i].0) == i
  {
  }

  /** The key of EMOTION_RESPONSES for each emotion. */
  function EmotionKey(e: Emotion): (key: string)
    ensures key in EMOTION_RESPONSES
  {
    match e
    case Happy => "happy"
    case Sad => "sad"
    case Excited => "excited"
    case Tired => "tired"
  }

  predicate Expresses(text: string, e: Emotion)
  {
    AnyKeyword(text, MOOD_WORDS[MoodRank(e)].1)
  }

  /** The `if`/`elif` chain: the first emotion, in order, a word of which occurs in the lower-cased mood. */
  function ClassifyMood(mood: string): (r: Option<Emotion>)
    ensures r.Some? ==> (Expresses(Lower(mood), r.value)
      && forall e :: MoodRank(e) < MoodRank(r.value) ==> !Expresses(Lower(mood), e))
    ensures r.None? <==> forall e :: !Expresses(Lower(mood), e)
  {
    var text := Lower(mood);
    var found := FirstGroup(MOOD_WORDS, text);
    if found.None? then
      assert forall e :: !Expresses(text, e) by {
        forall e ensures !Expresses(text, e) { assert MoodRank(e) < |MOOD_WORDS|; }
      }
      None
    else
      MoodRankOnto(found.value);
      Some(MOOD_WORDS[found.value].0)
  }

  const MoodFallback: string := "أفهم مشاعرك، وأتمنى لك يوماً أفضل 💙"

  datatype MoodReply = AskBack(question: string) | Feeling(emotion: Option<Emotion>, text: string)

  /**
   * `mood_check`: with no mood, ask one of the daily questions; otherwise
   * answer with a text of the first emotion found, or the fixed text when
   * none is found.
   */
  function MoodCheck(mood: Option<string>, pick: nat): (r: MoodReply)
    ensures (mood.None? || mood.value == "") <==> r.AskBack?
    ensures r.AskBack? ==> r.question in QUESTIONS
    ensures r.Feeling? ==> r.emotion == ClassifyMood(mood.value)
    ensures r.Feeling? && r.emotion.Some? ==> r.text in EMOTION_RESPONSES[EmotionKey(r.emotion.value)]
    ensures r.Feeling? && r.emotion.None? ==> r.text == MoodFallback
  {
    if mood.None? || mood.value == "" then AskBack(RandomQuestion(pick))
    else
      match ClassifyMood(mood.value)
      case Some(e) => Feeling(Some(e), EmotionResponse(EmotionKey(e), pick))
      case None => Feeling(None, MoodFallback)
  }

  /** A mood that is happy and tired at once is answered as happy, the group tried first. */
  lemma MoodPrecedence(mood: string, a: Emotion, b: Emotion)
    requires MoodRank(a) < MoodRank(b)
    requires Expresses(Lower(mood), a) && Expresses(Lower(mood), b)
    ensures ClassifyMood(mood).Some? && ClassifyMood(mood) != Some(b)
    ensures MoodRank(ClassifyMood(mood).value) <= MoodRank(a)
  {
  }

  /** The fixed text and the emotion texts are told apart: the fallback is in no emotion's list. */
  lemma MoodFallbackIsDistinct(mood: string, pick: nat)
    requires mood != ""
    ensures MoodCheck(Some(mood), pick).text == MoodFallback <==> ClassifyMood(mood).None?
  {
    match ClassifyMood(mood)
    case None =>
    case Some(e) => FallbackIsNoEmotionText(e);
  }

  lemma FallbackIsNoEmotionText(e: Emotion)
    ensures MoodFallback !in EMOTION_RESPONSES[EmotionKey(e)]
  {
    match e
    case Happy =>
    case Sad =>
    case Excited =>
    case Tired =>
  }

  // ---------------------------------------------------------------------
  // The `games` command
  // ---------------------------------------------------------------------

  datatype GameChoice = ShowMenu | StartGuessing | StartTrivia | StartLuck | Ignored

  /** Dispatch on the sub-command: none lists the games, an unknown one does nothing. */
  function ChooseGame(gameType: Option<string>): (r: GameChoice)
    ensures r == ShowMenu <==> gameType.None? || gameType.value == ""
    ensures r == StartGuessing <==> gameType == Some("تخمين")
    ensures r == StartTrivia <==> gameType == Some("سؤال")
    ensures r == StartLuck <==> gameType == Some("حظ")
  {
    if gameType.None? || gameType.value == "" then ShowMenu
    else if gameType.value == "تخمين" then StartGuessing
    else if gameType.value == "سؤال" then StartTrivia
    else if gameType.value == "حظ" then StartLuck
    else Ignored
  }
}
