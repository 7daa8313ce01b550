/** The closing-reflection catalog: two constant keyword tables, one per track, and
    the first-match lookup over them. `Math.random()` becomes the parameter `r`. */
module Responses {
  import opened ChatTypes
  import Text

  /** Which catalog to search: `'feeling'` or `'goal'`. */
  datatype ResponseType = FeelingTrack | GoalTrack

  /** One category: its keywords, in the order they are scanned, and its canned texts. */
  datatype Category = Category(keywords: seq<string>, responses: seq<string>)

  /** The keyword that marks a table's default category; it never counts as a match. */
  const DefaultKeyword := "default"

  /** The text returned when a table has no default category. */
  const Fallback := "Thank you for sharing. Your journey matters, and each step you take is meaningful."

  const HappyKeywords: seq<string> := ["happy", "joy", "excited", "cheerful", "elated", "joyful"]
  const HappyReplies: seq<string> := [
    "It's wonderful that you're feeling happy! Happiness is a powerful emotion that can transform your day. Keep nurturing those positive feelings and notice what brings you joy.",
    "Your happiness is something to celebrate. Remember this feeling and the circumstances that brought it about so you can recreate it in the future.",
    "Feeling happy is a gift. Allow yourself to fully experience and embody this joy, letting it flow through every part of your being."
  ]
  const Happy := Category(HappyKeywords, HappyReplies)

  const SadKeywords: seq<string> := ["sad", "down", "unhappy", "depressed", "blue", "grief", "gloomy"]
  const SadReplies: seq<string> := [
    "I understand feeling sad can be difficult. Remember that all emotions, even challenging ones, provide important information and are part of the human experience.",
    "When sadness visits, try to approach it with gentleness and curiosity. What might this feeling be telling you about what matters most?",
    "Sadness often points to something we value or care about. By acknowledging your feelings, you're honoring an important part of yourself."
  ]
  const Sad := Category(SadKeywords, SadReplies)

  const AngryKeywords: seq<string> := ["angry", "frustrated", "annoyed", "irritated", "mad", "rage"]
  const AngryReplies: seq<string> := [
    "Anger often arises when boundaries have been crossed or needs aren't being met. What might your anger be trying to protect?",
    "Your frustration is valid. Consider what specific action might help address the situation that's triggering these feelings.",
    "Anger carries powerful energy. Once acknowledged, you can channel it constructively to make positive changes in your situation."
  ]
  const Angry := Category(AngryKeywords, AngryReplies)

  const AnxiousKeywords: seq<string> := ["anxious", "worried", "nervous", "stressed", "uneasy", "tense"]
  const AnxiousReplies: seq<string> := [
    "Anxiety often comes from caring deeply and wanting things to go well. What small step might help you feel more grounded right now?",
    "When anxiety arises, remember that you've faced uncertain situations before and found your way through them.",
    "Your nervous system is trying to protect you. Taking slow, deep breaths can help signal to your body that you're safe in this moment."
  ]
  const Anxious := Category(AnxiousKeywords, AnxiousReplies)

  const TiredKeywords: seq<string> := ["tired", "exhausted", "drained", "fatigue", "weary", "burnout"]
  const TiredReplies: seq<string> := [
    "Feeling tired is your body's way of asking for rest. What small form of restoration might be possible for you today?",
    "Exhaustion is a signal that shouldn't be ignored. Consider what boundaries might need strengthening to protect your energy.",
    "Rest isn't just a physical need but a profound form of self-care. Your well-being matters, and you deserve to replenish your energy."
  ]
  const Tired := Category(TiredKeywords, TiredReplies)

  const ConfusedKeywords: seq<string> := ["confused", "uncertain", "unsure", "lost", "puzzled", "bewildered"]
  const ConfusedReplies: seq<string> := [
    "Confusion often precedes clarity. Give yourself permission to not have all the answers right now.",
    "Feeling uncertain is natural when facing complex situations. What's one small aspect that you feel more clear about?",
    "Sometimes the path forward reveals itself one step at a time. Trust that you're gathering important information even in this uncertain state."
  ]
  const Confused := Category(ConfusedKeywords, ConfusedReplies)

  const HopefulKeywords: seq<string> := ["hopeful", "optimistic", "expectant", "encouraged", "positive"]
  const HopefulReplies: seq<string> := [
    "Hope is a powerful force that can illuminate even the darkest paths. Nurture this feeling by focusing on possibilities.",
    "Your optimism is a strength that can carry you through challenges and open doors to new opportunities.",
    "Feeling hopeful connects you to your resilience and inner wisdom. Trust this positive orientation toward the future."
  ]
  const Hopeful := Category(HopefulKeywords, HopefulReplies)

  const GratefulKeywords: seq<string> := ["grateful", "thankful", "appreciative", "blessed", "content"]
  const GratefulReplies: seq<string> := [
    "Gratitude is like a lens that brings the good in your life into sharper focus. What else might you notice through this perspective?",
    "Feeling appreciative creates a virtuous cycle, opening us to notice even more to be thankful for.",
    "The practice of gratitude can transform ordinary moments into extraordinary ones. You're nurturing an important quality."
  ]
  const Grateful := Category(GratefulKeywords, GratefulReplies)

  const PeacefulKeywords: seq<string> := ["peaceful", "calm", "serene", "tranquil", "relaxed", "centered"]
  const PeacefulReplies: seq<string> := [
    "Peace is not just the absence of turbulence but a positive state worth cultivating. How might you extend this feeling?",
    "The calm you're experiencing is your natural state beneath the surface noise of life. You can return to this center anytime.",
    "Serenity allows us to see situations more clearly and respond with wisdom rather than reactivity. Cherish this state."
  ]
  const Peaceful := Category(PeacefulKeywords, PeacefulReplies)

  const LonelyKeywords: seq<string> := ["lonely", "isolated", "alone", "disconnected", "separated"]
  const LonelyReplies: seq<string> := [
    "Loneliness reminds us of our fundamental need for connection. Is there a small way you might reach out to someone today?",
    "Feeling isolated is a common human experience, even though it can feel like you're the only one. Many others feel this way too.",
    "Sometimes loneliness points us toward important connections we're missing. What kind of relationship might your heart be seeking?"
  ]
  const Lonely := Category(LonelyKeywords, LonelyReplies)

  const FeelingDefaultKeywords: seq<string> := ["default"]
  const FeelingDefaultReplies: seq<string> := [
    "Thank you for sharing how you're feeling. Every emotion provides valuable information about what matters to you.",
    "I appreciate your openness about your feelings. Awareness is the first step toward understanding yourself more deeply.",
    "Your feelings are valid and important. By acknowledging them, you're honoring your authentic experience."
  ]
  const FeelingDefault := Category(FeelingDefaultKeywords, FeelingDefaultReplies)

  const FeelingResponses: seq<Category> := [
    Happy, Sad, Angry, Anxious, Tired, Confused,
    Hopeful, Grateful, Peaceful, Lonely, FeelingDefault
  ]

  const HealthKeywords: seq<string> := ["health", "fitness", "exercise", "workout", "weight", "diet", "nutrition"]
  const HealthReplies: seq<string> := [
    "Your health goals reflect a commitment to your well-being. Remember that sustainable changes often come from small, consistent actions rather than dramatic overhauls.",
    "Taking care of your body is one of the most fundamental forms of self-respect. Your goal matters, and every step forward counts.",
    "Health journeys aren't linear - they include both progress and setbacks. Be kind to yourself throughout the process of working toward this important goal."
  ]
  const Health := Category(HealthKeywords, HealthReplies)

  const CareerKeywords: seq<string> := ["career", "job", "work", "professional", "business", "promotion"]
  const CareerReplies: seq<string> := [
    "Your professional aspirations speak to your desire to contribute and grow. Consider both the outcome you want and the person you'll become on the journey.",
    "Career goals often connect to our deeper values about making an impact. What values are you honoring through this work?",
    "As you pursue your professional goals, remember that meaning can be found not just in achievement but in how you approach each day's work."
  ]
  const Career := Category(CareerKeywords, CareerReplies)

  const LearningKeywords: seq<string> := ["learning", "education", "study", "skill", "knowledge", "growth"]
  const LearningReplies: seq<string> := [
    "Your commitment to learning reflects a growth mindset that will serve you well. Every bit of knowledge builds upon itself over time.",
    "The pursuit of new skills and understanding expands not just what you can do, but who you can become. Enjoy the process of discovery.",
    "Learning goals connect us to our innate curiosity and capacity for growth. Your brain will thank you for the new neural pathways you're creating!"
  ]
  const Learning := Category(LearningKeywords, LearningReplies)

  const RelationshipsKeywords: seq<string> := ["relationship", "family", "friend", "partner", "marriage", "connection", "social"]
  const RelationshipsReplies: seq<string> := [
    "Nurturing meaningful relationships is one of life's most rewarding pursuits. Small moments of genuine connection often matter more than grand gestures.",
    "Your focus on relationships reflects wisdom about what truly matters in life. Quality connections are foundational to well-being.",
    "The effort you put into building and maintaining relationships creates ripples that extend far beyond what you can see right now."
  ]
  const Relationships := Category(RelationshipsKeywords, RelationshipsReplies)

  const FinancialKeywords: seq<string> := ["financial", "money", "saving", "investing", "debt", "budget", "wealth"]
  const FinancialReplies: seq<string> := [
    "Financial goals are not just about numbers\U{E2}\U{20AC}\U{201D}they're about creating security and possibilities for yourself and those you care about.",
    "Your attention to financial well-being shows foresight and self-care. Each step builds momentum toward greater stability and freedom.",
    "Money management is a form of self-respect. By taking control of your finances, you're creating more choices for your future self."
  ]
  const Financial := Category(FinancialKeywords, FinancialReplies)

  const CreativeKeywords: seq<string> := ["creative", "art", "music", "write", "paint", "create", "expression"]
  const CreativeReplies: seq<string> := [
    "Creative pursuits nourish parts of ourselves that logic alone cannot reach. Your artistic goals matter not just for what you'll produce, but for how they'll transform you.",
    "Making space for creativity in your life invites more possibility and fresh perspectives into everything you do.",
    "The creative process teaches us to embrace uncertainty and find joy in experimentation. These are skills that benefit all areas of life."
  ]
  const Creative := Category(CreativeKeywords, CreativeReplies)

  const HomeKeywords: seq<string> := ["home", "house", "apartment", "move", "renovation", "decorate"]
  const HomeReplies: seq<string> := [
    "Creating a home that supports your well-being is a profound form of self-care. Your environment shapes your daily experience in countless ways.",
    "Home goals reflect our desire for sanctuary and self-expression. What qualities are you hoping to cultivate in your space?",
    "The effort you put into your living environment pays dividends in comfort, functionality, and peace of mind every single day."
  ]
  const Home := Category(HomeKeywords, HomeReplies)

  const MentalKeywords: seq<string> := ["mental", "emotional", "therapy", "healing", "self-care", "wellness", "meditation"]
  const MentalReplies: seq<string> := [
    "Your commitment to emotional well-being is perhaps the most important investment you can make. This inner work creates the foundation for everything else.",
    "Mental health goals honor the complexity of being human. Your awareness and intention already represent significant progress.",
    "The care you're giving to your emotional landscape will benefit not just you, but everyone you interact with. This work matters deeply."
  ]
  const Mental := Category(MentalKeywords, MentalReplies)

  const TravelKeywords: seq<string> := ["travel", "adventure", "explore", "trip", "journey", "vacation"]
  const TravelReplies: seq<string> := [
    "Travel opens us to new perspectives and reminds us of the vastness of human experience. Your desire for exploration speaks to a curious and open mind.",
    "Adventures, whether near or far, create memories and insights that become part of who we are. What are you hoping to discover?",
    "The anticipation of travel can bring almost as much joy as the journey itself. Savor both the planning and the experience."
  ]
  const Travel := Category(TravelKeywords, TravelReplies)

  const PurposeKeywords: seq<string> := ["purpose", "meaning", "spiritual", "faith", "fulfillment", "values"]
  const PurposeReplies: seq<string> := [
    "Seeking deeper meaning is part of what makes us human. Your questions and aspirations in this area reflect a rich inner life.",
    "Purpose often emerges gradually through living with intention and awareness. Each step on this path is valuable.",
    "The search for meaning invites us to connect with something larger than ourselves. Trust your intuition as you explore what brings you a sense of purpose."
  ]
  const Purpose := Category(PurposeKeywords, PurposeReplies)

  const GoalDefaultKeywords: seq<string> := ["default"]
  const GoalDefaultReplies: seq<string> := [
    "Your goal matters because it represents something you value. What small step might move you in that direction today?",
    "Setting intentions is powerful. By clarifying what you want, you've already begun the journey toward making it reality.",
    "Every meaningful achievement begins with a decision to try. Your commitment to this goal speaks to your courage and vision."
  ]
  const GoalDefault := Category(GoalDefaultKeywords, GoalDefaultReplies)

  const GoalResponses: seq<Category> := [
    Health, Career, Learning, Relationships, Financial, Creative,
    Home, Mental, Travel, Purpose, GoalDefault
  ]

  function Table(t: ResponseType): seq<Category> {
    match t
    case FeelingTrack => FeelingResponses
    case GoalTrack => GoalResponses
  }

  /** Every response text of a table. */
  function AllResponses(table: seq<Category>): set<string> {
    set i, j | 0 <= i < |table| && 0 <= j < |table[i].responses| :: table[i].responses[j]
  }

  /** A category offers at least one response, and every response is non-empty. */
  predicate WellFormedCategory(c: Category) {
    |c.responses| > 0 && forall j :: 0 <= j < |c.responses| ==> |c.responses[j]| > 0
  }

  predicate WellFormedTable(table: seq<Category>) {
    forall i :: 0 <= i < |table| ==> WellFormedCategory(table[i])
  }

  lemma FeelingTableWellFormed()
    ensures WellFormedTable(FeelingResponses)
  {
    assert WellFormedCategory(Happy) && WellFormedCategory(Sad) && WellFormedCategory(Angry);
    assert WellFormedCategory(Anxious) && WellFormedCategory(Tired) && WellFormedCategory(Confused);
    assert WellFormedCategory(Hopeful) && WellFormedCategory(Grateful) && WellFormedCategory(Peaceful);
    assert WellFormedCategory(Lonely) && WellFormedCategory(FeelingDefault);
  }

  lemma GoalTableWellFormed()
    ensures WellFormedTable(GoalResponses)
  {
    assert WellFormedCategory(Health) && WellFormedCategory(Career) && WellFormedCategory(Learning);
    assert WellFormedCategory(Relationships) && WellFormedCategory(Financial) && WellFormedCategory(Creative);
    assert WellFormedCategory(Home) && WellFormedCategory(Mental) && WellFormedCategory(Travel);
    assert WellFormedCategory(Purpose) && WellFormedCategory(GoalDefault);
  }

  /** Both catalogs only ever offer non-empty responses. */
  lemma TablesWellFormed()
    ensures WellFormedTable(FeelingResponses) && WellFormedTable(GoalResponses)
  {
    FeelingTableWellFormed();
    GoalTableWellFormed();
  }

  /** `Math.floor(r * n)` for a draw `r` of `Math.random()`: always an index below `n`. */
  function PickIndex(r: real, n: nat): (i: nat)
    requires 0.0 <= r < 1.0 && n > 0
    ensures i < n
  {
    var x := r * (n as real);
    assert 0.0 <= x < n as real;
    x.Floor
  }

  /** Keyword `kw` counts as a match for the lowercased input. */
  predicate Hit(kw: string, lower: string) {
    kw != DefaultKeyword && Text.Contains(lower, kw)
  }

  /** Some keyword of category `c` matches. */
  predicate CategoryHit(c: Category, lower: string) {
    exists k :: 0 <= k < |c.keywords| && Hit(c.keywords[k], lower)
  }

  /** Category `i` is the first category of `table` that matches. */
  predicate FirstHit(table: seq<Category>, lower: string, i: int) {
    0 <= i < |table| && CategoryHit(table[i], lower)
    && forall j :: 0 <= j < i ==> !CategoryHit(table[j], lower)
  }

  /** The inner loop: the first keyword from index `from` on that matches. */
  function FirstKeyword(kws: seq<string>, lower: string, from: nat): (m: Option<nat>)
    requires from <= |kws|
    ensures m.Some? ==> from <= m.value < |kws| && Hit(kws[m.value], lower)
    ensures m.Some? ==> forall j :: from <= j < m.value ==> !Hit(kws[j], lower)
    ensures m.None? ==> forall j :: from <= j < |kws| ==> !Hit(kws[j], lower)
    decreases |kws| - from
  {
    if from == |kws| then None
    else if Hit(kws[from], lower) then Some(from)
    else FirstKeyword(kws, lower, from + 1)
  }

  /** The outer loop: the first category from index `from` on with a matching keyword,
      together with the keyword that matched. */
  function FirstMatch(table: seq<Category>, lower: string, from: nat): (m: Option<(nat, nat)>)
    requires from <= |table|
    ensures m.Some? ==> from <= m.value.0 < |table| && m.value.1 < |table[m.value.0].keywords|
    ensures m.Some? ==> Hit(table[m.value.0].keywords[m.value.1], lower)
    ensures m.Some? ==> forall j :: from <= j < m.value.0 ==> !CategoryHit(table[j], lower)
    ensures m.Some? ==> forall k :: 0 <= k < m.value.1 ==> !Hit(table[m.value.0].keywords[k], lower)
    ensures m.None? ==> forall j :: from <= j < |table| ==> !CategoryHit(table[j], lower)
    decreases |table| - from
  {
    if from == |table| then None
    else
      match FirstKeyword(table[from].keywords, lower, 0)
      case Some(k) => Some((from, k))
      case None => FirstMatch(table, lower, from + 1)
  }

  /** `responseArray.find(category => category.keywords.includes('default'))`, from index `from` on. */
  function FindDefault(table: seq<Category>, from: nat): (d: Option<nat>)
    requires from <= |table|
    ensures d.Some? ==> from <= d.value < |table| && DefaultKeyword in table[d.value].keywords
    ensures d.Some? ==> forall j :: from <= j < d.value ==> DefaultKeyword !in table[j].keywords
    ensures d.None? ==> forall j :: from <= j < |table| ==> DefaultKeyword !in table[j].keywords
    decreases |table| - from
  {
    if from == |table| then None
    else if DefaultKeyword in table[from].keywords then Some(from)
    else FindDefault(table, from + 1)
  }

  /** The index of the default category: the last one, in both tables. */
  const DefaultCategory: nat := 10

  lemma FeelingDefaultFound()
    ensures FindDefault(FeelingResponses, 0) == Some(DefaultCategory)
  {
    assert forall j :: 0 <= j < 10 ==> DefaultKeyword !in FeelingResponses[j].keywords;
    assert DefaultKeyword in FeelingResponses[10].keywords;
  }

  lemma GoalDefaultFound()
    ensures FindDefault(GoalResponses, 0) == Some(DefaultCategory)
  {
    assert forall j :: 0 <= j < 10 ==> DefaultKeyword !in GoalResponses[j].keywords;
    assert DefaultKeyword in GoalResponses[10].keywords;
  }

  /** Both tables end with their default category, and it is the only one. */
  lemma DefaultCategoryFound(t: ResponseType)
    ensures FindDefault(Table(t), 0) == Some(DefaultCategory)
  {
    match t
    case FeelingTrack => FeelingDefaultFound();
    case GoalTrack => GoalDefaultFound();
  }

  /** The lookup on one table for the lowercased input `lower`: a response of the first
      matching category; failing that, one of the table's default category; failing that,
      the fallback text. */
  function Lookup(table: seq<Category>, lower: string, r: real): (res: string)
    requires 0.0 <= r < 1.0 && WellFormedTable(table)
    ensures forall i :: FirstHit(table, lower, i) ==> res in table[i].responses
    ensures FirstMatch(table, lower, 0).Some? ==> res in table[FirstMatch(table, lower, 0).value.0].responses
    ensures FirstMatch(table, lower, 0).None? && FindDefault(table, 0).Some? ==>
      res in table[FindDefault(table, 0).value].responses
    ensures FindDefault(table, 0).Some? ==> res in AllResponses(table) && |res| > 0
    ensures res == Fallback || res in AllResponses(table)
    ensures FirstMatch(table, lower, 0).None? && FindDefault(table, 0).None? ==> res == Fallback
  {
    match FirstMatch(table, lower, 0)
    case Some(m) =>
      var rs := table[m.0].responses;
      var res := rs[PickIndex(r, |rs|)];
      assert res in AllResponses(table);
      assert forall i :: FirstHit(table, lower, i) ==> i == m.0;
      res
    case None =>
      match FindDefault(table, 0)
      case Some(d) =>
        var rs := table[d].responses;
        var res := rs[PickIndex(r, |rs|)];
        assert res in AllResponses(table);
        res
      case None => Fallback
  }

  /** `findBestResponse(input, type)`: a response of the first category, in declared order,
      that has a keyword occurring in the lowercased input; otherwise a response of the
      default category. */
  function FindBestResponse(input: string, t: ResponseType, r: real): (res: string)
    requires 0.0 <= r < 1.0
    ensures |res| > 0
    ensures res in AllResponses(Table(t))
    ensures forall i :: FirstHit(Table(t), Text.Lower(input), i) ==> res in Table(t)[i].responses
    ensures (forall i :: 0 <= i < |Table(t)| ==> !CategoryHit(Table(t)[i], Text.Lower(input)))
              ==> res in Table(t)[DefaultCategory].responses
  {
    TablesWellFormed();
    DefaultCategoryFound(t);
    Lookup(Table(t), Text.Lower(input), r)
  }
}
