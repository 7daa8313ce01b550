/** The session list the engine keeps: how a session is created, how an update reaches the
    sessions whose id equals the current id, and the shape every session keeps. */
module Sessions {
  import opened ChatTypes
  import Text
  import Dialogue

  /** `Date.now().toString()`: the decimal text of a clock reading. */
  function IdOf(clock: Timestamp): string {
    Text.NatToString(clock)
  }

  function BotMessage(content: string, now: Timestamp): Message {
    Message(IdOf(now), Bot, content, now)
  }

  function UserMessage(content: string, now: Timestamp): Message {
    Message(IdOf(now), User, content, now)
  }

  /** What one `prev.map(...)` does to a matching session: append one message, refresh
      `updatedAt`, and, when given, set the path and the step. */
  datatype Edit = Edit(message: Message, path: Option<Path>, step: Option<nat>)

  function Applied(s: Session, e: Edit): (t: Session)
    ensures t.id == s.id && t.title == s.title && t.createdAt == s.createdAt
    ensures t.messages == s.messages + [e.message] && t.updatedAt == e.message.timestamp
    ensures e.path.None? ==> t.path == s.path
    ensures e.step.None? ==> t.currentStep == s.currentStep
  {
    s.(messages := s.messages + [e.message],
       updatedAt := e.message.timestamp,
       path := if e.path.Some? then e.path.value else s.path,
       currentStep := if e.step.Some? then e.step else s.currentStep)
  }

  /** `prev.map(session => session.id === currentSessionId ? edited : session)`: every
      session whose id equals the current id gets the edit; the others and the order stay. */
  function Replace(ss: seq<Session>, current: Option<string>, e: Edit): (ts: seq<Session>)
    ensures |ts| == |ss|
    ensures forall i :: 0 <= i < |ss| ==> ts[i] == (if current == Some(ss[i].id) then Applied(ss[i], e) else ss[i])
  {
    if ss == [] then []
    else [if current == Some(ss[0].id) then Applied(ss[0], e) else ss[0]] + Replace(ss[1..], current, e)
  }

  /** The truthiness test `currentSessionId ? ... : ...` on a `string | null`. */
  predicate IsSet(current: Option<string>) {
    current.Some? && current.value != ""
  }

  /** The index `sessions.find` stops at: the first session whose id equals `current`. */
  function CurrentIndex(ss: seq<Session>, current: Option<string>): (k: Option<nat>)
    ensures k.Some? ==> IsSet(current) && k.value < |ss| && Some(ss[k.value].id) == current
    ensures k.Some? ==> forall j :: 0 <= j < k.value ==> Some(ss[j].id) != current
    ensures k.None? ==> !IsSet(current) || forall j :: 0 <= j < |ss| ==> Some(ss[j].id) != current
  {
    if !IsSet(current) then None else FirstWithId(ss, current.value, 0)
  }

  function FirstWithId(ss: seq<Session>, id: string, from: nat): (k: Option<nat>)
    requires from <= |ss|
    ensures k.Some? ==> from <= k.value < |ss| && ss[k.value].id == id
    ensures k.Some? ==> forall j :: from <= j < k.value ==> ss[j].id != id
    ensures k.None? ==> forall j :: from <= j < |ss| ==> ss[j].id != id
    decreases |ss| - from
  {
    if from == |ss| then None
    else if ss[from].id == id then Some(from)
    else FirstWithId(ss, id, from + 1)
  }

  /** `currentSession`: null unless the current id is set and some session carries it. */
  function CurrentSession(ss: seq<Session>, current: Option<string>): (r: Option<Session>)
    ensures r.Some? ==> r.value in ss && Some(r.value.id) == current
    ensures r.None? <==> !IsSet(current) || forall j :: 0 <= j < |ss| ==> Some(ss[j].id) != current
  {
    match CurrentIndex(ss, current)
    case None => None
    case Some(k) => Some(ss[k])
  }

  predicate DistinctIds(ss: seq<Session>) {
    forall i, j :: 0 <= i < j < |ss| ==> ss[i].id != ss[j].id
  }

  /** No session carries the id the clock reading `now` gives. */
  predicate FreshId(ss: seq<Session>, now: Timestamp) {
    forall i :: 0 <= i < |ss| ==> ss[i].id != IdOf(now)
  }

  /** With distinct ids, an update reaches exactly the current session and nothing else. */
  lemma {:induction false} ReplaceOne(ss: seq<Session>, k: nat, e: Edit)
    requires DistinctIds(ss) && k < |ss|
    ensures Replace(ss, Some(ss[k].id), e) == ss[k := Applied(ss[k], e)]
  {
    var ts := Replace(ss, Some(ss[k].id), e);
    forall i | 0 <= i < |ss| ensures ts[i] == ss[k := Applied(ss[k], e)][i] {
      if i != k {
        assert i < k ==> ss[i].id != ss[k].id;
        assert k < i ==> ss[k].id != ss[i].id;
      }
    }
  }

  /** An update for an id no session carries changes nothing. */
  lemma ReplaceMissing(ss: seq<Session>, current: Option<string>, e: Edit)
    requires CurrentIndex(ss, current).None? && IsSet(current)
    ensures Replace(ss, current, e) == ss
  {
  }

  // ---------------------------------------------------------------------------
  // The shape of a session
  // ---------------------------------------------------------------------------

  /** The bot speaks first and last, and a user message is always followed by a bot one. */
  predicate Alternating(ms: seq<Message>) {
    |ms| > 0 && ms[0].role == Bot && ms[|ms| - 1].role == Bot
    && forall i :: 0 < i < |ms| && ms[i].role == User ==> ms[i - 1].role == Bot
  }

  /** Every message id is the decimal text of the message's own timestamp. */
  predicate IdsFromClock(ms: seq<Message>) {
    forall i :: 0 <= i < |ms| ==> ms[i].id == IdOf(ms[i].timestamp)
  }

  /** The shape every session of the engine keeps: it opens with the greeting, bot and user
      alternate as stated, ids come from the clock, and the step never passes the path's bound. */
  predicate WellFormed(s: Session) {
    Alternating(s.messages)
    && s.messages[0].content == Dialogue.Greeting
    && IdsFromClock(s.messages)
    && StepOf(s) <= Dialogue.StepBound(s.path)
  }

  /** Every session of the list is well formed, stated recursively so that the prover unfolds
      it only on demand; `AllWellFormedAt` gives the index form. */
  predicate AllWellFormed(ss: seq<Session>) {
    ss == [] || (WellFormed(ss[0]) && AllWellFormed(ss[1..]))
  }

  lemma {:induction false} AllWellFormedAt(ss: seq<Session>)
    ensures AllWellFormed(ss) <==> forall i :: 0 <= i < |ss| ==> WellFormed(ss[i])
  {
    if ss != [] {
      AllWellFormedAt(ss[1..]);
      assert forall i :: 1 <= i < |ss| ==> ss[i] == ss[1..][i - 1];
    }
  }

  /** `createNewSession`'s new session: titled after the old count, holding the greeting alone,
      at step 0 without a path. */
  function NewSession(now: Timestamp, count: nat): (s: Session)
    ensures WellFormed(s)
    ensures s.id == IdOf(now) && s.title == "Chat " + Text.NatToString(count + 1)
    ensures s.messages == [BotMessage(Dialogue.Greeting, now)]
    ensures s.path == NoPath && StepOf(s) == 0
  {
    Session(IdOf(now), "Chat " + Text.NatToString(count + 1), [BotMessage(Dialogue.Greeting, now)],
            now, now, NoPath, Some(0))
  }

  /** Appending a bot message whose id comes from the clock keeps a session well formed as
      long as the new step stays within the new path's bound. */
  lemma BotEditKeepsWellFormed(s: Session, e: Edit)
    requires WellFormed(s)
    requires e.message.role == Bot && e.message.id == IdOf(e.message.timestamp)
    requires StepOf(Applied(s, e)) <= Dialogue.StepBound(Applied(s, e).path)
    ensures WellFormed(Applied(s, e))
  {
    var ms := Applied(s, e).messages;
    assert ms[0] == s.messages[0];
    assert forall i :: 0 < i < |ms| && ms[i].role == User ==> i < |s.messages|;
  }

  /** An update that appends a bot message and either keeps the path and the step or sets a
      step no larger than 2 (within every path's bound) keeps every session well formed; no
      session's id changes. */
  lemma {:induction false} ReplaceKeepsWellFormed(ss: seq<Session>, current: Option<string>, e: Edit)
    requires AllWellFormed(ss)
    requires e.message.role == Bot && e.message.id == IdOf(e.message.timestamp)
    requires e.step.Some? ==> e.step.value <= 2
    requires e.step.None? ==> e.path.None?
    ensures AllWellFormed(Replace(ss, current, e))
    ensures DistinctIds(ss) ==> DistinctIds(Replace(ss, current, e))
  {
    ReplaceKeepsIds(ss, current, e);
    if ss != [] {
      ReplaceKeepsWellFormed(ss[1..], current, e);
      if current == Some(ss[0].id) {
        BotEditKeepsWellFormed(ss[0], e);
      }
      assert Replace(ss, current, e)[1..] == Replace(ss[1..], current, e);
    }
  }

  /** An update changes no session's id, so distinct ids stay distinct. */
  lemma ReplaceKeepsIds(ss: seq<Session>, current: Option<string>, e: Edit)
    ensures DistinctIds(ss) ==> DistinctIds(Replace(ss, current, e))
  {
    var ts := Replace(ss, current, e);
    assert forall i :: 0 <= i < |ss| ==> ts[i].id == ss[i].id;
  }

  // ---------------------------------------------------------------------------
  // One submission
  // ---------------------------------------------------------------------------

  function UserEdit(content: string, now: Timestamp): Edit {
    Edit(UserMessage(content, now), None, None)
  }

  /** The bot message and the path/step update each outcome of the deferred step makes:
      `selectPath`, the scripted reply, the restart greeting, or a farewell. */
  function OutcomeEdit(o: Dialogue.Outcome, now: Timestamp): (e: Edit)
    ensures e.message.role == Bot && e.message.id == IdOf(e.message.timestamp)
  {
    match o
    case PathSelected(p) => Edit(BotMessage(Dialogue.PathQuestion(p), now), Some(p), Some(1))
    case Reply(text, k) => Edit(BotMessage(text, now), None, Some(k))
    case Restarted => Edit(BotMessage(Dialogue.Greeting, now), Some(NoPath), Some(0))
    case Farewell(text) => Edit(BotMessage(text, now), None, None)
  }

  /** One exchange: the user message at `now`, then the bot message and update of
      outcome `o` at `later`. */
  function Exchange(s: Session, content: string, o: Dialogue.Outcome, now: Timestamp, later: Timestamp): (t: Session)
    ensures t.id == s.id && t.title == s.title && t.createdAt == s.createdAt
    ensures t.messages == s.messages + [UserMessage(content, now), OutcomeEdit(o, later).message]
  {
    Applied(Applied(s, UserEdit(content, now)), OutcomeEdit(o, later))
  }

  /** What each outcome makes of the session: `selectPath` sets the path, step 1 and the path's
      question; a reply sets its step; a restart clears the path to step 0 with the greeting; a
      farewell leaves path and step alone. The bot message comes at `later`. */
  lemma ExchangeEffect(s: Session, content: string, o: Dialogue.Outcome, now: Timestamp, later: Timestamp)
    ensures var t := Exchange(s, content, o, now, later);
      var sent := t.messages[|t.messages| - 1];
      && |t.messages| == |s.messages| + 2 && t.messages[|s.messages|] == UserMessage(content, now)
      && sent.role == Bot && sent.timestamp == later && t.updatedAt == later
      && (o.PathSelected? ==> t.path == o.path && StepOf(t) == 1 && sent.content == Dialogue.PathQuestion(o.path))
      && (o.Reply? ==> t.path == s.path && StepOf(t) == o.newStep && sent.content == o.text)
      && (o.Restarted? ==> t.path == NoPath && StepOf(t) == 0 && sent.content == Dialogue.Greeting)
      && (o.Farewell? ==> t.path == s.path && t.currentStep == s.currentStep && sent.content == o.text)
  {
  }

  /** The current session after `sendMessage(content)`: the exchange whose outcome is
      decided on the path and step read at submission. */
  function Turn(s: Session, content: string, r: real, now: Timestamp, later: Timestamp): (t: Session)
    requires 0.0 <= r < 1.0
    ensures t.id == s.id && |t.messages| == |s.messages| + 2
  {
    Exchange(s, content, Dialogue.Decide(s.path, StepOf(s), content, r), now, later)
  }

  /** At step 0 the text picks the path: a recognised choice sets it with step 1 and asks the
      path's question; anything else gets the clarification and stays at step 0. */
  lemma TurnAtChoice(s: Session, content: string, r: real, now: Timestamp, later: Timestamp)
    requires 0.0 <= r < 1.0 && StepOf(s) == 0
    ensures var t := Turn(s, content, r, now, later);
      var sent := t.messages[|t.messages| - 1].content;
      var chosen := Dialogue.ClassifyPath(content);
      && (chosen != NoPath ==> t.path == chosen && StepOf(t) == 1 && sent == Dialogue.PathQuestion(chosen))
      && (chosen == NoPath ==> t.path == s.path && StepOf(t) == 0 && sent == Dialogue.Clarification)
  {
    ExchangeEffect(s, content, Dialogue.Decide(s.path, 0, content, r), now, later);
  }

  /** Inside the script each answer gets the step's prompt and moves one step on. */
  lemma TurnInScript(s: Session, content: string, r: real, now: Timestamp, later: Timestamp)
    requires 0.0 <= r < 1.0 && Dialogue.InScript(s.path, StepOf(s))
    ensures var t := Turn(s, content, r, now, later);
      && t.path == s.path && StepOf(t) == StepOf(s) + 1
      && t.messages[|t.messages| - 1].content == Dialogue.ScriptPrompt(s.path, StepOf(s), content)
  {
    ExchangeEffect(s, content, Dialogue.Decide(s.path, StepOf(s), content, r), now, later);
  }

  /** At the restart step, a positive word in the trimmed, lowercased answer clears the path
      and restarts at step 0 with the greeting; any other answer gets a goodbye and leaves
      path and step alone. */
  lemma TurnAtRestart(s: Session, content: string, r: real, now: Timestamp, later: Timestamp)
    requires 0.0 <= r < 1.0 && Dialogue.AwaitingRestart(s.path, StepOf(s))
    ensures var t := Turn(s, content, r, now, later);
      var sent := t.messages[|t.messages| - 1].content;
      var answer := Text.Trim(Text.Lower(content));
      var positive := exists i :: 0 <= i < |Dialogue.PositiveResponses| && Text.Contains(answer, Dialogue.PositiveResponses[i]);
      && (positive ==> t.path == NoPath && StepOf(t) == 0 && sent == Dialogue.Greeting)
      && (!positive ==> t.path == s.path && StepOf(t) == StepOf(s) && sent in Dialogue.GoodbyeMessages)
  {
    ExchangeEffect(s, content, Dialogue.Decide(s.path, StepOf(s), content, r), now, later);
  }

  /** A user message followed by a bot message, both with ids from the clock, keeps a session
      well formed when the final step stays within the final path's bound. */
  lemma ExchangeKeepsWellFormed(s: Session, u: Message, e: Edit)
    requires WellFormed(s)
    requires u.role == User && u.id == IdOf(u.timestamp)
    requires e.message.role == Bot && e.message.id == IdOf(e.message.timestamp)
    requires var t := Applied(Applied(s, Edit(u, None, None)), e); StepOf(t) <= Dialogue.StepBound(t.path)
    ensures var t := Applied(Applied(s, Edit(u, None, None)), e);
      && WellFormed(t)
      && t.messages == s.messages + [u, e.message]
  {
    var t := Applied(Applied(s, Edit(u, None, None)), e);
    var ms := t.messages;
    assert ms == s.messages + [u, e.message];
    assert ms[0] == s.messages[0];
    forall i | 0 < i < |ms| && ms[i].role == User ensures ms[i - 1].role == Bot {
      if i < |s.messages| {
        assert ms[i] == s.messages[i] && ms[i - 1] == s.messages[i - 1];
      }
    }
    assert IdsFromClock(ms) by {
      forall i | 0 <= i < |ms| ensures ms[i].id == IdOf(ms[i].timestamp) {
        if i < |s.messages| { assert ms[i] == s.messages[i]; }
      }
    }
  }

  /** A submission adds exactly one user message with the text, then exactly one bot message,
      and the session stays well formed. */
  lemma TurnKeepsWellFormed(s: Session, content: string, r: real, now: Timestamp, later: Timestamp)
    requires 0.0 <= r < 1.0 && WellFormed(s)
    ensures var t := Turn(s, content, r, now, later);
      && WellFormed(t)
      && t.messages == s.messages + [UserMessage(content, now), t.messages[|t.messages| - 1]]
      && t.messages[|t.messages| - 1].role == Bot
  {
    var o := Dialogue.Decide(s.path, StepOf(s), content, r);
    ExchangeKeepsWellFormed(s, UserMessage(content, now), OutcomeEdit(o, later));
  }

  /** Each session of a well-formed list is well formed. */
  lemma {:induction false} AllWellFormedGet(ss: seq<Session>, k: nat)
    requires AllWellFormed(ss) && k < |ss|
    ensures WellFormed(ss[k])
  {
    if k > 0 {
      AllWellFormedGet(ss[1..], k - 1);
    }
  }

  /** Changing one session of a well-formed list into a well-formed session keeps the list
      well formed. */
  lemma {:induction false} AllWellFormedUpdate(ss: seq<Session>, k: nat, s: Session)
    requires AllWellFormed(ss) && k < |ss| && WellFormed(s)
    ensures AllWellFormed(ss[k := s])
  {
    if k == 0 {
      assert ss[k := s][1..] == ss[1..];
    } else {
      AllWellFormedUpdate(ss[1..], k - 1, s);
      assert ss[k := s][1..] == ss[1..][k - 1 := s];
    }
  }

  /** Appending a well-formed session to a well-formed list keeps it well formed. */
  lemma {:induction false} AllWellFormedSnoc(ss: seq<Session>, s: Session)
    requires AllWellFormed(ss) && WellFormed(s)
    ensures AllWellFormed(ss + [s])
  {
    if ss != [] {
      AllWellFormedSnoc(ss[1..], s);
      assert (ss + [s])[1..] == ss[1..] + [s];
    }
  }

  /** Two updates for the id of session `k`, with distinct ids: session `k` takes both
      edits, nothing else changes, and the ids stay distinct. */
  lemma TwoEdits(ss: seq<Session>, k: nat, u: Edit, e: Edit)
    requires DistinctIds(ss) && k < |ss|
    ensures var id := Some(ss[k].id);
      var ts := Replace(Replace(ss, id, u), id, e);
      ts == ss[k := Applied(Applied(ss[k], u), e)] && DistinctIds(ts)
  {
    var id := Some(ss[k].id);
    var us := Replace(ss, id, u);
    ReplaceOne(ss, k, u);
    ReplaceKeepsIds(ss, id, u);
    assert us[k].id == ss[k].id;
    ReplaceOne(us, k, e);
    ReplaceKeepsIds(us, id, e);
  }

  /** The two updates of one submission: with distinct ids the current session, and no
      other, takes the exchange, and the list stays well formed when the exchanged session is. */
  lemma SubmitOne(ss: seq<Session>, k: nat, content: string, o: Dialogue.Outcome, now: Timestamp, later: Timestamp)
    requires k < |ss| && DistinctIds(ss) && AllWellFormed(ss)
    requires WellFormed(Exchange(ss[k], content, o, now, later))
    ensures var id := Some(ss[k].id);
      var ts := Replace(Replace(ss, id, UserEdit(content, now)), id, OutcomeEdit(o, later));
      && ts == ss[k := Exchange(ss[k], content, o, now, later)]
      && AllWellFormed(ts) && DistinctIds(ts)
  {
    TwoEdits(ss, k, UserEdit(content, now), OutcomeEdit(o, later));
    AllWellFormedUpdate(ss, k, Exchange(ss[k], content, o, now, later));
  }

  /** Adding the new session for a fresh clock reading keeps the list well formed with
      distinct ids. */
  lemma AddSession(ss: seq<Session>, now: Timestamp)
    requires AllWellFormed(ss) && DistinctIds(ss) && FreshId(ss, now)
    ensures var ts := ss + [NewSession(now, |ss|)];
      AllWellFormed(ts) && DistinctIds(ts)
  {
    AllWellFormedSnoc(ss, NewSession(now, |ss|));
  }

  /** After the new session for a fresh clock reading is added, its id finds it. */
  lemma NewSessionFound(ss: seq<Session>, now: Timestamp)
    requires FreshId(ss, now)
    ensures CurrentIndex(ss + [NewSession(now, |ss|)], Some(IdOf(now))) == Some(|ss|)
  {
    var ts := ss + [NewSession(now, |ss|)];
    assert ts[|ss|].id == IdOf(now);
    assert forall j :: 0 <= j < |ss| ==> ts[j] == ss[j];
  }

  /** The number of messages with role `role`. */
  function Count(ms: seq<Message>, role: Role): (n: nat)
    ensures n <= |ms|
  {
    if ms == [] then 0 else (if ms[0].role == role then 1 else 0) + Count(ms[1..], role)
  }

  /** In an alternating history the bot has written more messages than the user. */
  lemma {:induction false} BotsOutnumberUsers(ms: seq<Message>)
    requires Alternating(ms)
    ensures Count(ms, Bot) > Count(ms, User)
  {
    PrefixBalance(ms, |ms|);
    assert ms[..|ms|] == ms;
  }

  /** Every prefix that ends on a bot message has more bot than user messages; one that ends
      on a user message has at least as many. */
  lemma {:induction false} PrefixBalance(ms: seq<Message>, n: nat)
    requires Alternating(ms) && 0 < n <= |ms|
    ensures ms[n - 1].role == Bot ==> Count(ms[..n], Bot) > Count(ms[..n], User)
    ensures ms[n - 1].role == User ==> Count(ms[..n], Bot) >= Count(ms[..n], User)
  {
    if n == 1 {
      assert ms[..1] == [ms[0]];
      assert ms[..1][1..] == [];
    } else {
      PrefixBalance(ms, n - 1);
      CountSnoc(ms[..n - 1], ms[n - 1], Bot);
      CountSnoc(ms[..n - 1], ms[n - 1], User);
      assert ms[..n] == ms[..n - 1] + [ms[n - 1]];
    }
  }

  /** The bot is not at most one message ahead: choosing a path by button on a new session
      adds the path's question without any user message, leaving two bot messages and none
      from the user. */
  lemma ButtonSelectionUnbalanced(now: Timestamp, n: nat, later: Timestamp, p: Path)
    ensures var s := Applied(NewSession(now, n), OutcomeEdit(Dialogue.PathSelected(p), later));
      Count(s.messages, Bot) == 2 && Count(s.messages, User) == 0
  {
    var ms := Applied(NewSession(now, n), OutcomeEdit(Dialogue.PathSelected(p), later)).messages;
    assert ms[1..][1..] == [];
  }

  lemma {:induction false} CountSnoc(ms: seq<Message>, m: Message, role: Role)
    ensures Count(ms + [m], role) == Count(ms, role) + (if m.role == role then 1 else 0)
  {
    if ms != [] {
      assert (ms + [m])[1..] == ms[1..] + [m];
      CountSnoc(ms[1..], m, role);
    } else {
      assert [m][1..] == [];
    }
  }
}
