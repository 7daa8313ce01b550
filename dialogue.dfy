/** The pure decisions of the session engine: the bot's fixed texts, how a submitted
    text is routed on `(path, currentStep)`, the restart handshake, the user answers
    the cycle re-reads from history, and the cycle's own transition table. */
module Dialogue {
  import opened ChatTypes
  import Text
  import Responses

  // ---------------------------------------------------------------------------
  // Fixed texts
  // ---------------------------------------------------------------------------

  const Greeting := "How do you want to start today?\n\n1. How you feel\n2. Start with a goal"
  const FeelingQuestion := "How/What are you feeling right now?"
  const GoalQuestion := "What is your goal?"
  const Clarification := "I didn't understand. Please choose either 'How you feel' or 'Start with a goal'."
  const NowPrompt := "How are you feeling about this now?"
  const OppositePrompt := "What would the opposite of that feel like? How do you want to feel?"
  const RestartOffer := "\n\nWould you like to start another conversation? (yes/no)"

  /** Words that, found anywhere in the answer, confirm a restart. */
  const PositiveResponses: seq<string> :=
    ["yes", "ok", "sure", "yeah", "yep", "start", "again", "restart", "continue"]

  const GoodbyeMessages: seq<string> := [
    "Thank you for chatting with me today! Take care and come back anytime.",
    "It was great talking with you. Wishing you a wonderful day ahead!",
    "Thanks for the conversation. Hope to chat with you again soon!",
    "I enjoyed our talk. Have a lovely day and see you next time!"
  ]

  /** "Feel X — what does X feel like?" */
  function Echo(x: string): string {
    "Feel " + x + " \U{2014} what does " + x + " feel like?"
  }

  function FeelLike(x: string): string {
    "What would it feel like to feel " + x + "?"
  }

  function GoalFeelLike(x: string): string {
    "What would it feel like to " + x + "?"
  }

  function StillFeel(x: string): string {
    "Do you still feel " + x + "?"
  }

  /** The question `selectPath` appends; the empty text when called with `null`. */
  function PathQuestion(p: Path): (q: string)
    ensures q == "" <==> p == NoPath
  {
    match p
    case Feeling => FeelingQuestion
    case Goal => GoalQuestion
    case NoPath => ""
  }

  // ---------------------------------------------------------------------------
  // Routing on (path, step)
  // ---------------------------------------------------------------------------

  /** The step at which a path waits for the restart answer. */
  predicate AwaitingRestart(p: Path, step: nat) {
    (p == Feeling && step == 5) || (p == Goal && step == 6)
  }

  /** The steps that have a scripted prompt: feeling 1..4, goal 1..5. */
  predicate InScript(p: Path, step: nat) {
    (p == Feeling && 1 <= step <= 4) || (p == Goal && 1 <= step <= 5)
  }

  /** The largest step a session on path `p` can hold: the restart step for the two
      paths; 2 without a path, since the cycle's "primary: yes" answer sets step 2
      whatever the path. */
  function StepBound(p: Path): nat {
    match p
    case Feeling => 5
    case Goal => 6
    case NoPath => 2
  }

  function Track(p: Path): Responses.ResponseType
    requires p != NoPath
  {
    if p == Feeling then Responses.FeelingTrack else Responses.GoalTrack
  }

  /** The branch of the submission handler that a `(path, step)` pair reaches. */
  datatype Arm =
    | RestartArm                                  // the restart check before everything else
    | ChoiceArm                                   // step 0: path selection
    | ScriptArm                                   // a `case 1`..`case 4`/`case 5` prompt
    | ClosingArm                                  // `case 5` (feeling) / `case 6` (goal)
    | DefaultArm                                  // `default:` of either switch
    | NoPathArm                                   // a non-zero step without a path

  /** The closing arms sit behind the restart check, so no pair reaches them; the
      default arms need a step beyond the path's bound. */
  function ArmOf(p: Path, step: nat): (a: Arm)
    ensures !a.ClosingArm?
    ensures a == RestartArm <==> AwaitingRestart(p, step)
    ensures a == ScriptArm <==> InScript(p, step)
    ensures a == ChoiceArm <==> step == 0
    ensures a.DefaultArm? ==> step > StepBound(p)
    ensures a == NoPathArm <==> (p == NoPath && step != 0)
  {
    if AwaitingRestart(p, step) then RestartArm
    else if step == 0 then ChoiceArm
    else match p
      case Feeling =>
        if step <= 4 then ScriptArm
        else if step == 5 then ClosingArm
        else DefaultArm
      case Goal =>
        if step <= 5 then ScriptArm
        else if step == 6 then ClosingArm
        else DefaultArm
      case NoPath => NoPathArm
  }

  /** The scripted prompt of each in-script step: two fixed questions per path, and at the
      other steps a question that quotes the user's answer. */
  function ScriptPrompt(p: Path, step: nat, content: string): (t: string)
    requires InScript(p, step)
    ensures (p == Feeling && step == 2) || (p == Goal && step == 3) ==> t == NowPrompt
    ensures (p == Feeling && step == 3) || (p == Goal && step == 4) ==> t == OppositePrompt
    ensures (p == Feeling && (step == 1 || step == 4)) || (p == Goal && (step == 1 || step == 2 || step == 5)) ==>
      Text.Contains(t, content)
  {
    if p == Feeling then
      if step == 1 then QuotedEcho(content); Echo(content)
      else if step == 2 then NowPrompt
      else if step == 3 then OppositePrompt
      else Quoted("What would it feel like to feel ", content, "?"); FeelLike(content)
    else
      if step == 1 then Quoted("What would it feel like to ", content, "?"); GoalFeelLike(content)
      else if step == 2 then QuotedEcho(content); Echo(content)
      else if step == 3 then NowPrompt
      else if step == 4 then OppositePrompt
      else QuotedEcho(content); Echo(content)
  }

  /** `x` occurs in `pre + x + post`. */
  lemma Quoted(pre: string, x: string, post: string)
    ensures Text.Contains(pre + x + post, x)
  {
    assert Text.OccursAt(pre + x + post, x, |pre|) by {
      assert (pre + x + post)[|pre|..|pre| + |x|] == x;
    }
  }

  lemma QuotedEcho(x: string)
    ensures Text.Contains(Echo(x), x)
  {
    var post := " \U{2014} what does " + x + " feel like?";
    assert Echo(x) == "Feel " + x + post;
    Quoted("Feel ", x, post);
  }

  /** Step-0 classification: "feel" anywhere (any case) or exactly "1" selects feeling,
      then "goal" anywhere or exactly "2" selects goal; `NoPath` means unrecognised. */
  function ClassifyPath(content: string): (p: Path)
    ensures p == Feeling <==> Text.Contains(Text.Lower(content), "feel") || content == "1"
    ensures p == Goal <==>
      !(Text.Contains(Text.Lower(content), "feel") || content == "1")
      && (Text.Contains(Text.Lower(content), "goal") || content == "2")
  {
    if Text.Contains(Text.Lower(content), "feel") || content == "1" then Feeling
    else if Text.Contains(Text.Lower(content), "goal") || content == "2" then Goal
    else NoPath
  }

  /** What the deferred step of a submission does to the session. */
  datatype Outcome =
    | PathSelected(path: Path)            // `selectPath(path)` supplies the bot message
    | Reply(text: string, newStep: nat)   // one bot message; `currentStep := newStep`
    | Restarted                           // the greeting again; path null, step 0
    | Farewell(text: string)              // one goodbye; path and step untouched

  /** Some word of `words` occurs in `text`. */
  function AnyContained(text: string, words: seq<string>): (b: bool)
    ensures b <==> exists i :: 0 <= i < |words| && Text.Contains(text, words[i])
  {
    if words == [] then false
    else Text.Contains(text, words[0]) || AnyContained(text, words[1..])
  }

  /** The restart handshake on the trimmed, lowercased answer: a positive word restarts,
      anything else gets the goodbye that the draw `r` picks. */
  function RestartHandshake(content: string, r: real): (o: Outcome)
    requires 0.0 <= r < 1.0
    ensures o.Restarted? || o.Farewell?
    ensures o.Restarted? <==>
      exists i :: 0 <= i < |PositiveResponses| && Text.Contains(Text.Trim(Text.Lower(content)), PositiveResponses[i])
    ensures o.Farewell? ==> o.text in GoodbyeMessages
  {
    var lower := Text.Trim(Text.Lower(content));
    if AnyContained(lower, PositiveResponses) then Restarted
    else Farewell(GoodbyeMessages[Responses.PickIndex(r, |GoodbyeMessages|)])
  }

  /** The deferred step of `sendMessage`, from the path and step read at submission time. */
  function Decide(p: Path, step: nat, content: string, r: real): (o: Outcome)
    requires 0.0 <= r < 1.0
    ensures AwaitingRestart(p, step) <==> (o.Restarted? || o.Farewell?)
    ensures AwaitingRestart(p, step) ==> o == RestartHandshake(content, r)
    ensures o.PathSelected? ==> step == 0 && o.path != NoPath
    ensures step == 0 ==>
      o == (if ClassifyPath(content) == NoPath then Reply(Clarification, 0) else PathSelected(ClassifyPath(content)))
    ensures InScript(p, step) ==> o == Reply(ScriptPrompt(p, step, content), step + 1)
    ensures o.Reply? && !InScript(p, step) ==> o.newStep == step
    ensures o.Reply? && step <= StepBound(p) ==> o.newStep <= StepBound(p)
    ensures p == NoPath && step != 0 ==> o == Reply("", step)
    ensures ArmOf(p, step).DefaultArm? ==>
      p != NoPath && o == Reply(Responses.FindBestResponse(content, Track(p), r), step)
  {
    // Both the closing and the default arm look the answer up in the path's own table.
    var reflection := if p == NoPath then "" else Responses.FindBestResponse(content, Track(p), r);
    match ArmOf(p, step)
    case RestartArm => RestartHandshake(content, r)
    case ChoiceArm =>
      var chosen := ClassifyPath(content);
      if chosen == NoPath then Reply(Clarification, step) else PathSelected(chosen)
    case ScriptArm => Reply(ScriptPrompt(p, step, content), step + 1)
    case ClosingArm => Reply(reflection + RestartOffer, step)  // shadowed by the restart check
    case DefaultArm => Reply(reflection, step)
    case NoPathArm => Reply("", step)
  }

  /** The steps a session passes through when `inputs` are submitted one after another
      from `step`, as long as each submission gets a scripted or fallback reply. */
  function StepTrace(p: Path, step: nat, inputs: seq<string>, r: real): seq<nat>
    requires 0.0 <= r < 1.0
    decreases |inputs|
  {
    if inputs == [] then [step]
    else match Decide(p, step, inputs[0], r)
      case Reply(_, k) => [step] + StepTrace(p, k, inputs[1..], r)
      case _ => [step]
  }

  /** From any step of a path's script, one answer per remaining step climbs one step at a
      time to the restart step: the trace is exactly `step, step + 1, ..., StepBound(p)`. */
  lemma {:induction false} ScriptClimbs(p: Path, step: nat, inputs: seq<string>, r: real)
    requires 0.0 <= r < 1.0
    requires p != NoPath && 1 <= step <= StepBound(p)
    requires |inputs| == StepBound(p) - step
    ensures StepTrace(p, step, inputs, r) == seq(|inputs| + 1, i requires 0 <= i => step + i)
    ensures AwaitingRestart(p, step + |inputs|)
    decreases |inputs|
  {
    if inputs != [] {
      assert InScript(p, step);
      ScriptClimbs(p, step + 1, inputs[1..], r);
    }
  }

  // ---------------------------------------------------------------------------
  // The answers the cycle re-reads from history
  // ---------------------------------------------------------------------------

  /** The contents of the user messages, in order (`messages.filter(m => m.role === 'user')`). */
  function UserContents(ms: seq<Message>): (us: seq<string>)
    ensures |us| <= |ms|
  {
    if ms == [] then []
    else (if ms[0].role == User then [ms[0].content] else []) + UserContents(ms[1..])
  }

  /** Appending a message adds its content to the user answers exactly when the user wrote it. */
  lemma {:induction false} UserContentsAppend(ms: seq<Message>, m: Message)
    ensures UserContents(ms + [m]) == UserContents(ms) + (if m.role == User then [m.content] else [])
  {
    if ms != [] {
      assert (ms + [m])[1..] == ms[1..] + [m];
      UserContentsAppend(ms[1..], m);
    }
  }

  /** Element `i`, or the empty text when there is none. */
  function Nth(us: seq<string>, i: nat): string {
    if i < |us| then us[i] else ""
  }

  datatype Answers = Answers(primaryFeeling: string, secondaryDescription: string)

  /** `getUserAnswers`: on the feeling path the first and second user messages, on the
      goal path the second and third, counted over the whole history; "" when missing. */
  function UserAnswers(current: Option<Session>): (a: Answers)
    ensures current.None? ==> a == Answers("", "")
    ensures current.Some? && current.value.path == Feeling ==>
      var us := UserContents(current.value.messages);
      a == Answers(Nth(us, 0), Nth(us, 1))
    ensures current.Some? && current.value.path == Goal ==>
      var us := UserContents(current.value.messages);
      a == Answers(Nth(us, 1), Nth(us, 2))
    ensures current.Some? && current.value.path == NoPath ==> a == Answers("", "")
  {
    if current.None? then Answers("", "")
    else
      var us := UserContents(current.value.messages);
      if current.value.path == Feeling && |us| >= 1 then
        Answers(us[0], if |us| >= 2 then us[1] else "")
      else if current.value.path == Goal && |us| >= 2 then
        Answers(us[1], if |us| >= 3 then us[2] else "")
      else Answers("", "")
  }

  /** Bot messages do not change the answers: a cycle question re-read after the cycle's
      own messages asks about the same texts. */
  lemma AnswersIgnoreBotMessages(s: Session, m: Message)
    requires m.role == Bot
    ensures UserAnswers(Some(s.(messages := s.messages + [m]))) == UserAnswers(Some(s))
  {
    UserContentsAppend(s.messages, m);
  }

  // ---------------------------------------------------------------------------
  // The "do you still feel X?" cycle
  // ---------------------------------------------------------------------------

  /** `cycleStep`: which question the cycle asked last; `NoPhase` is `null`. */
  datatype CyclePhase = NoPhase | SecondaryPhase | PrimaryPhase

  /** The step the cycle reopens when the primary feeling persists. */
  const ResumeStep: nat := 2

  /** One answer to a cycle question: the bot's next message, the next phase, and whether
      `currentStep` is set back to `ResumeStep`. */
  datatype CycleMove = CycleMove(question: string, next: CyclePhase, resume: bool)

  /** The cycle's transition table; `None` when no cycle question is pending. */
  function CycleAnswer(phase: CyclePhase, isStillFeeling: bool, a: Answers): (m: Option<CycleMove>)
    ensures m.None? <==> phase == NoPhase
    ensures m.Some? ==> (m.value.next == NoPhase <==> phase == PrimaryPhase)
    ensures m.Some? ==> (m.value.resume <==> phase == PrimaryPhase && isStillFeeling)
    ensures phase == SecondaryPhase ==> m.value.next == (if isStillFeeling then SecondaryPhase else PrimaryPhase)
    ensures phase == SecondaryPhase ==>
      m.value.question == StillFeel(if isStillFeeling then a.secondaryDescription else a.primaryFeeling)
    ensures phase == PrimaryPhase ==>
      m.value.question == (if isStillFeeling then Echo(a.primaryFeeling) else NowPrompt)
  {
    match phase
    case NoPhase => None
    case SecondaryPhase =>
      if isStillFeeling then Some(CycleMove(StillFeel(a.secondaryDescription), SecondaryPhase, false))
      else Some(CycleMove(StillFeel(a.primaryFeeling), PrimaryPhase, false))
    case PrimaryPhase =>
      if isStillFeeling then Some(CycleMove(Echo(a.primaryFeeling), NoPhase, true))
      else Some(CycleMove(NowPrompt, NoPhase, false))
  }

  /** The questions a sequence of cycle answers produces from `phase`, stopping when the
      cycle ends. */
  function CycleQuestions(phase: CyclePhase, answers: seq<bool>, a: Answers): seq<string>
    decreases |answers|
  {
    if answers == [] then []
    else match CycleAnswer(phase, answers[0], a)
      case None => []
      case Some(m) => [m.question] + CycleQuestions(m.next, answers[1..], a)
  }

  /** However many times the user says "yes" to the secondary question, the cycle asks
      the identical question again and never leaves the secondary phase. */
  lemma {:induction false} SecondaryYesRepeats(n: nat, a: Answers)
    ensures CycleQuestions(SecondaryPhase, seq(n, _ => true), a) == seq(n, _ => StillFeel(a.secondaryDescription))
  {
    if n > 0 {
      SecondaryYesRepeats(n - 1, a);
      assert seq(n, _ => true)[1..] == seq(n - 1, _ => true);
    }
  }
}
