/**
 * responses.py: the constant answer tables and the lookups over them. Each
 * lookup draws from a table with `random.choice`, here Choice.Choose with
 * the draw as a parameter, and falls back to a fixed text for a key the
 * table does not have. The hour of day comes in as a parameter too.
 */
module Responses {
  import opened Wrappers
  import opened Choice

  // ---------------------------------------------------------------------
  // Time of day
  // ---------------------------------------------------------------------

  datatype DayPart = Morning | Afternoon | Evening | Night

  /** The part of the day an hour falls in: [5,12), [12,17), [17,22), and every other hour. */
  function DayPartOf(hour: int): (p: DayPart)
    ensures p == Morning <==> 5 <= hour < 12
    ensures p == Afternoon <==> 12 <= hour < 17
    ensures p == Evening <==> 17 <= hour < 22
    ensures p == Night <==> hour < 5 || 22 <= hour
  {
    if 5 <= hour < 12 then Morning
    else if 12 <= hour < 17 then Afternoon
    else if 17 <= hour < 22 then Evening
    else Night
  }

  /** How many of the hours 0 .. n-1 fall in part `p`. */
  function HoursIn(p: DayPart, n: nat): nat
  {
    if n == 0 then 0 else HoursIn(p, n - 1) + (if DayPartOf(n - 1) == p then 1 else 0)
  }

  /** Of the 24 hours of a day, 7 are morning, 5 afternoon, 5 evening and 7 night. */
  lemma DayPartSizes()
    ensures HoursIn(Morning, 24) == 7 && HoursIn(Afternoon, 24) == 5
    ensures HoursIn(Evening, 24) == 5 && HoursIn(Night, 24) == 7
    ensures HoursIn(Morning, 24) + HoursIn(Afternoon, 24) + HoursIn(Evening, 24) + HoursIn(Night, 24) == 24
  {
    assert HoursIn(Morning, 12) == 7 && HoursIn(Afternoon, 12) == 0;
    assert HoursIn(Evening, 12) == 0 && HoursIn(Night, 12) == 5;
  }

  /** TIME_RESPONSES */
  function TimeResponses(p: DayPart): (r: seq<string>)
    ensures |r| == 4
  {
    match p
    case Morning => ["صباح الخير والنشاط! ☀️", "صباح مليء بالإنجازات! 🌅", "أسعد الله صباحك بكل خير! 🌸", "صباح البركة والتوفيق! ✨"]
    case Afternoon => ["ظهيرة مباركة! ☀️", "نهارك سعيد! 😊", "أوقات مثمرة! 💪", "استمر في التميز! 🌟"]
    case Evening => ["مساء الخير والراحة! 🌙", "مساء هادئ ومريح! 🌆", "أسعد الله مساءك! ⭐", "مساء مليء بالسكينة! 🌺"]
    case Night => ["ليلة سعيدة! 🌙", "أحلام جميلة! ✨", "راحة مستحقة! 😴", "ليلة مباركة! 🌟"]
  }

  /** `get_time_based_response`: a greeting of the part of the day the hour falls in. */
  function TimeBasedResponse(hour: int, pick: nat): (r: string)
    ensures r in TimeResponses(DayPartOf(hour))
  {
    Choose(TimeResponses(DayPartOf(hour)), pick)
  }

  // ---------------------------------------------------------------------
  // Keyed tables with a fallback
  // ---------------------------------------------------------------------

  /** INTERACTIVE_RESPONSES */
  const INTERACTIVE_RESPONSES: map<string, seq<string>> := map[
    "compliments" := ["أنت شخص رائع! 🌟", "تستحق كل التقدير! 👏", "مبدع كما عهدناك! ✨", "واصل هذا التميز! 💪"],
    "motivation" := ["لا تستسلم أبداً! 💪", "أنت أقوى مما تتخيل! 🦁", "النجاح ينتظرك! 🎯", "كل خطوة تقربك من الهدف! 🚀"],
    "wisdom" := ["الصبر مفتاح الفرج 🗝️", "العلم نور والجهل ظلام 💡", "من جد وجد ومن زرع حصد 🌱", "الطريق إلى النجاح يبدأ بخطوة واحدة 👣"],
    "fun" := ["الضحك يطيل العمر! 😄", "ابتسامتك تضيء اليوم! 😊", "المرح جزء من الحياة! 🎉", "السعادة معدية، انشرها! 😁"]
  ]

  /** EMOTION_RESPONSES */
  const EMOTION_RESPONSES: map<string, seq<string>> := map[
    "happy" := ["أراك سعيداً اليوم! 😊", "السعادة تشع منك! ✨", "فرحتك تسعدني! 🎉", "استمر في هذا المزاج الرائع! 😄"],
    "sad" := ["أتمنى أن تشعر بتحسن قريباً 💙", "الأيام الصعبة تمر، والأجمل قادم 🌈", "أنا هنا إذا احتجت للحديث 🤗", "كل شيء سيكون بخير بإذن الله 🙏"],
    "excited" := ["أشاركك الحماس! 🎉", "طاقتك الإيجابية رائعة! ⚡", "هذا الحماس معدي! 🔥", "واصل هذه الروح المتفائلة! 🚀"],
    "tired" := ["خذ قسطاً من الراحة 😴", "الراحة حق مشروع 🛋️", "أنت تستحق الاستراحة 💤", "اعتن بنفسك أولاً 💙"]
  ]

  /** QUESTIONS */
  const QUESTIONS: seq<string> := [
    "كيف كان يومك؟ 🤔", "ما هو أفضل شيء حدث لك اليوم؟ ✨", "هل تعلمت شيئاً جديداً اليوم؟ 📚",
    "ما هي خططك للغد؟ 📅", "ما هو هدفك الحالي؟ 🎯"
  ]

  /** ARABIC_EMOJIS */
  const ARABIC_EMOJIS: map<string, seq<string>> := map[
    "celebration" := ["🎉", "🎊", "✨", "🌟", "💫", "🎈"],
    "love" := ["❤️", "💙", "💚", "💛", "💜", "🧡", "💖"],
    "nature" := ["🌸", "🌺", "🌻", "🌹", "🌷", "🌿", "🍃"],
    "success" := ["👏", "💪", "🏆", "🥇", "🎯", "🚀", "⭐"],
    "peace" := ["☮️", "🕊️", "🤲", "🙏", "💙", "🌈"],
    "wisdom" := ["📚", "💡", "🧠", "🔍", "📖", "✍️"],
    "time" := ["⏰", "🕐", "⌚", "📅", "🗓️", "⏳"],
    "weather" := ["☀️", "🌙", "⭐", "🌅", "🌆", "🌈", "☁️"]
  ]

  const ResponseFallback: string := "أهلاً بك! 😊"
  const EmotionFallback: string := "أفهم مشاعرك 💙"
  const EmojiFallback: string := "😊"
  const DefaultEmojiCategory: string := "celebration"

  /** Every table has at least one entry per key. */
  ghost predicate NonEmptyLists(table: map<string, seq<string>>)
  {
    forall k :: k in table ==> |table[k]| > 0
  }

  /**
   * A draw from the table's list for a known key; the fallback for any
   * other key. When the fallback is in none of the lists, getting the
   * fallback means exactly that the key was unknown.
   */
  function Lookup(table: map<string, seq<string>>, key: string, fallback: string, pick: nat): (r: string)
    requires NonEmptyLists(table)
    ensures key in table ==> r in table[key]
    ensures key !in table ==> r == fallback
    ensures (forall k :: k in table ==> fallback !in table[k]) ==> (r == fallback <==> key !in table)
  {
    if key in table then Choose(table[key], pick) else fallback
  }

  /** `get_random_response` */
  function RandomResponse(category: string, pick: nat): (r: string)
    ensures category in INTERACTIVE_RESPONSES ==> r in INTERACTIVE_RESPONSES[category]
    ensures r == ResponseFallback <==> category !in INTERACTIVE_RESPONSES
  {
    Lookup(INTERACTIVE_RESPONSES, category, ResponseFallback, pick)
  }

  /** `get_emotion_response` */
  function EmotionResponse(emotion: string, pick: nat): (r: string)
    ensures emotion in EMOTION_RESPONSES ==> r in EMOTION_RESPONSES[emotion]
    ensures r == EmotionFallback <==> emotion !in EMOTION_RESPONSES
  {
    Lookup(EMOTION_RESPONSES, emotion, EmotionFallback, pick)
  }

  /** `get_random_question` */
  function RandomQuestion(pick: nat): (r: string)
    ensures r in QUESTIONS
  {
    Choose(QUESTIONS, pick)
  }

  /** `get_random_emoji`, whose category defaults to "celebration". */
  function RandomEmoji(category: Option<string>, pick: nat): (r: string)
    ensures var key := if category.Some? then category.value else DefaultEmojiCategory;
      && (key in ARABIC_EMOJIS ==> r in ARABIC_EMOJIS[key])
      && (r == EmojiFallback <==> key !in ARABIC_EMOJIS)
    ensures category.None? ==> r in ARABIC_EMOJIS["celebration"]
  {
    var key := if category.Some? then category.value else DefaultEmojiCategory;
    Lookup(ARABIC_EMOJIS, key, EmojiFallback, pick)
  }

  /** Every entry of every table can be drawn. */
  lemma LookupReachesAll(table: map<string, seq<string>>, key: string, fallback: string, i: nat)
    requires NonEmptyLists(table)
    requires key in table && i < |table[key]|
    ensures Lookup(table, key, fallback, i) == table[key][i]
  {
    ChooseReaches(table[key], i);
  }
}
