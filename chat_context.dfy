/** The engine's state and operations: one provider object whose fields the operations
    update. Each timer-delayed step runs atomically right after the step that schedules it;
    clock readings (`now`, `later`) and the `Math.random()` draw (`r`) are parameters. */
module ChatContext {
  import opened ChatTypes
  import Text
  import Dialogue
  import Sessions

  class ChatProvider {
    var sessions: seq<Session>
    var currentSessionId: Option<string>
    var isTyping: bool
    var isMobileSidebarOpen: bool
    var isCycleActive: bool
    var cycleStep: Dialogue.CyclePhase

    /** Every session is well formed, no two sessions share an id, and a cycle is active
        exactly when a cycle question is pending. */
    ghost predicate Valid()
      reads this
    {
      Sessions.AllWellFormed(sessions)
      && Sessions.DistinctIds(sessions)
      && (isCycleActive <==> cycleStep != Dialogue.NoPhase)
    }

    /** The provider's initial state: no session yet, nothing current. */
    constructor()
      ensures Valid()
      ensures sessions == [] && currentSessionId == None
      ensures !isTyping && !isMobileSidebarOpen && !isCycleActive && cycleStep == Dialogue.NoPhase
    {
      sessions := [];
      currentSessionId := None;
      isTyping := false;
      isMobileSidebarOpen := false;
      isCycleActive := false;
      cycleStep := Dialogue.NoPhase;
    }

    /** `currentSession`. */
    function CurrentSession(): Option<Session>
      reads this
    {
      Sessions.CurrentSession(sessions, currentSessionId)
    }

    /** `createNewSession`: appends one session holding the greeting, makes it current and
        clears the cycle. The clock reading must give an id no session has yet. */
    method CreateNewSession(now: Timestamp)
      requires Valid() && Sessions.FreshId(sessions, now)
      modifies this
      ensures Valid()
      ensures sessions == old(sessions) + [Sessions.NewSession(now, |old(sessions)|)]
      ensures currentSessionId == Some(Sessions.IdOf(now))
      ensures CurrentSession() == Some(Sessions.NewSession(now, |old(sessions)|))
      ensures !isCycleActive && cycleStep == Dialogue.NoPhase
      ensures isTyping == old(isTyping) && isMobileSidebarOpen == old(isMobileSidebarOpen)
    {
      Sessions.AddSession(sessions, now);
      Sessions.NewSessionFound(sessions, now);
      var s := Sessions.NewSession(now, |sessions|);
      sessions := sessions + [s];
      currentSessionId := Some(s.id);
      isCycleActive := false;
      cycleStep := Dialogue.NoPhase;
    }

    /** `switchSession`: sets the current id without checking it, closes the mobile sidebar
        and clears the cycle; no session changes. */
    method SwitchSession(id: string)
      requires Valid()
      modifies this
      ensures Valid()
      ensures sessions == old(sessions) && currentSessionId == Some(id)
      ensures !isMobileSidebarOpen && !isCycleActive && cycleStep == Dialogue.NoPhase
      ensures isTyping == old(isTyping)
      ensures CurrentSession().Some? <==> id != "" && exists i :: 0 <= i < |sessions| && sessions[i].id == id
    {
      currentSessionId := Some(id);
      isMobileSidebarOpen := false;
      isCycleActive := false;
      cycleStep := Dialogue.NoPhase;
    }

    /** `setIsMobileSidebarOpen`. */
    method SetMobileSidebarOpen(isOpen: bool)
      requires Valid()
      modifies this
      ensures Valid()
      ensures isMobileSidebarOpen == isOpen
      ensures sessions == old(sessions) && currentSessionId == old(currentSessionId)
      ensures isTyping == old(isTyping) && isCycleActive == old(isCycleActive) && cycleStep == old(cycleStep)
    {
      isMobileSidebarOpen := isOpen;
    }

    /** `startCycleCheck`: with a current session and a non-empty secondary answer, asks
        "Do you still feel {secondary}?" and enters the secondary phase; otherwise nothing. */
    method StartCycleCheck(now: Timestamp)
      requires Valid()
      modifies this
      ensures Valid()
      ensures currentSessionId == old(currentSessionId) && isMobileSidebarOpen == old(isMobileSidebarOpen)
      ensures old(CurrentSession()).None? || Dialogue.UserAnswers(old(CurrentSession())).secondaryDescription == "" ==>
        sessions == old(sessions) && isTyping == old(isTyping)
        && isCycleActive == old(isCycleActive) && cycleStep == old(cycleStep)
      ensures old(CurrentSession()).Some? && Dialogue.UserAnswers(old(CurrentSession())).secondaryDescription != "" ==>
        && sessions == Sessions.Replace(old(sessions), currentSessionId, Sessions.Edit(Sessions.BotMessage(
             Dialogue.StillFeel(Dialogue.UserAnswers(old(CurrentSession())).secondaryDescription), now), None, None))
        && !isTyping && isCycleActive && cycleStep == Dialogue.SecondaryPhase
    {
      if CurrentSession().None? {
        return;
      }
      var a := Dialogue.UserAnswers(CurrentSession());
      if a.secondaryDescription == "" {
        return;
      }
      isTyping := true;
      cycleStep := Dialogue.SecondaryPhase;
      isCycleActive := true;
      var e := Sessions.Edit(Sessions.BotMessage(Dialogue.StillFeel(a.secondaryDescription), now), None, None);
      Sessions.ReplaceKeepsWellFormed(sessions, currentSessionId, e);
      sessions := Sessions.Replace(sessions, currentSessionId, e);
      isTyping := false;
    }

    /** `handleCycleResponse`: answers the pending cycle question by the cycle's table, with
        the answers read when it is called. With no pending question nothing is appended and
        the typing flag stays raised. */
    method HandleCycleResponse(isStillFeeling: bool, now: Timestamp)
      requires Valid()
      modifies this
      ensures Valid()
      ensures currentSessionId == old(currentSessionId) && isMobileSidebarOpen == old(isMobileSidebarOpen)
      ensures old(CurrentSession()).None? ==>
        sessions == old(sessions) && isTyping == old(isTyping)
        && isCycleActive == old(isCycleActive) && cycleStep == old(cycleStep)
      ensures old(CurrentSession()).Some? ==>
        var m := Dialogue.CycleAnswer(old(cycleStep), isStillFeeling, Dialogue.UserAnswers(old(CurrentSession())));
        if m.None? then
          sessions == old(sessions) && isTyping
          && isCycleActive == old(isCycleActive) && cycleStep == old(cycleStep)
        else
          sessions == Sessions.Replace(old(sessions), currentSessionId,
            Sessions.Edit(Sessions.BotMessage(m.value.question, now), None,
                          if m.value.resume then Some(Dialogue.ResumeStep) else None))
          && !isTyping && cycleStep == m.value.next && isCycleActive == (m.value.next != Dialogue.NoPhase)
    {
      if CurrentSession().None? {
        return;
      }
      var a := Dialogue.UserAnswers(CurrentSession());
      isTyping := true;
      var m := Dialogue.CycleAnswer(cycleStep, isStillFeeling, a);
      if m.Some? {
        var e := Sessions.Edit(Sessions.BotMessage(m.value.question, now), None,
                               if m.value.resume then Some(Dialogue.ResumeStep) else None);
        Sessions.ReplaceKeepsWellFormed(sessions, currentSessionId, e);
        sessions := Sessions.Replace(sessions, currentSessionId, e);
        cycleStep := m.value.next;
        if m.value.next == Dialogue.NoPhase {
          isCycleActive := false;
        }
        isTyping := false;
      }
    }

    /** `selectPath`: with a current id set, sets the path, moves to step 1 and asks the path's
        first question (the empty text for `null`). */
    method SelectPath(path: Path, now: Timestamp)
      modifies this
      ensures old(Valid()) ==> Valid()
      ensures !Sessions.IsSet(old(currentSessionId)) ==> sessions == old(sessions)
      ensures Sessions.IsSet(old(currentSessionId)) ==>
        sessions == Sessions.Replace(old(sessions), currentSessionId,
                                     Sessions.OutcomeEdit(Dialogue.PathSelected(path), now))
      ensures currentSessionId == old(currentSessionId) && isMobileSidebarOpen == old(isMobileSidebarOpen)
      ensures isTyping == old(isTyping) && isCycleActive == old(isCycleActive) && cycleStep == old(cycleStep)
    {
      if !Sessions.IsSet(currentSessionId) {
        return;
      }
      var e := Sessions.OutcomeEdit(Dialogue.PathSelected(path), now);
      if Valid() {
        Sessions.ReplaceKeepsWellFormed(sessions, currentSessionId, e);
      }
      sessions := Sessions.Replace(sessions, currentSessionId, e);
    }

    /** `handleConversationRestart`: a positive word restarts the session at the greeting,
        anything else appends a farewell; it always reports the answer as handled. */
    method HandleConversationRestart(content: string, r: real, now: Timestamp) returns (handled: bool)
      requires 0.0 <= r < 1.0
      modifies this
      ensures old(Valid()) ==> Valid()
      ensures handled
      ensures sessions == Sessions.Replace(old(sessions), currentSessionId,
                                           Sessions.OutcomeEdit(Dialogue.RestartHandshake(content, r), now))
      ensures currentSessionId == old(currentSessionId) && isMobileSidebarOpen == old(isMobileSidebarOpen)
      ensures isTyping == old(isTyping) && isCycleActive == old(isCycleActive) && cycleStep == old(cycleStep)
    {
      var e := Sessions.OutcomeEdit(Dialogue.RestartHandshake(content, r), now);
      if Valid() {
        Sessions.ReplaceKeepsWellFormed(sessions, currentSessionId, e);
      }
      sessions := Sessions.Replace(sessions, currentSessionId, e);
      handled := true;
    }

    /** The timer callback `sendMessage` schedules: decides on the path and step read at
        submission, appends the bot's answer (through `selectPath` or
        `handleConversationRestart` where the source calls them) and lowers the typing flag.
        It is `SendMessage`'s internal step, not an operation of its own: `path` and `step` must
        be the ones `SendMessage` read from the current session, and `SendMessage`'s contract
        states the invariant across both steps. */
    method Respond(path: Path, step: nat, content: string, r: real, now: Timestamp)
      requires 0.0 <= r < 1.0 && Sessions.IsSet(currentSessionId)
      modifies this
      ensures sessions == Sessions.Replace(old(sessions), currentSessionId,
                                           Sessions.OutcomeEdit(Dialogue.Decide(path, step, content, r), now))
      ensures !isTyping
      ensures currentSessionId == old(currentSessionId) && isMobileSidebarOpen == old(isMobileSidebarOpen)
      ensures isCycleActive == old(isCycleActive) && cycleStep == old(cycleStep)
    {
      var o := Dialogue.Decide(path, step, content, r);
      match o {
        case PathSelected(p) =>
          SelectPath(p, now);
        case Reply(text, newStep) =>
          sessions := Sessions.Replace(sessions, currentSessionId,
                                       Sessions.Edit(Sessions.BotMessage(text, now), None, Some(newStep)));
        case Restarted =>
          var handled := HandleConversationRestart(content, r, now);
        case Farewell(_) =>
          var handled := HandleConversationRestart(content, r, now);
      }
      isTyping := false;
    }

    /** `sendMessage(content)` for the trimmed, non-empty text the input box submits, which it
        does only while the bot is not typing: nothing without a current session; otherwise the
        current session, and no other, takes the user message at `now` and the deferred step's
        bot message at `later`. */
    method SendMessage(content: string, r: real, now: Timestamp, later: Timestamp)
      requires Valid()
      requires content != [] && Text.Trimmed(content) && !isTyping
      requires 0.0 <= r < 1.0
      modifies this
      ensures Valid()
      ensures currentSessionId == old(currentSessionId) && isMobileSidebarOpen == old(isMobileSidebarOpen)
      ensures isCycleActive == old(isCycleActive) && cycleStep == old(cycleStep)
      ensures old(CurrentSession()).None? ==> sessions == old(sessions) && isTyping == old(isTyping)
      ensures old(CurrentSession()).Some? ==>
        var k := Sessions.CurrentIndex(old(sessions), old(currentSessionId)).value;
        && sessions == old(sessions)[k := Sessions.Turn(old(sessions)[k], content, r, now, later)]
        && !isTyping
    {
      if !Sessions.IsSet(currentSessionId) || CurrentSession().None? {
        return;
      }
      var k := Sessions.CurrentIndex(sessions, currentSessionId).value;
      var path, step := sessions[k].path, StepOf(sessions[k]);
      Sessions.AllWellFormedGet(sessions, k);
      Sessions.TurnKeepsWellFormed(sessions[k], content, r, now, later);
      Sessions.SubmitOne(sessions, k, content, Dialogue.Decide(path, step, content, r), now, later);
      sessions := Sessions.Replace(sessions, currentSessionId, Sessions.UserEdit(content, now));
      isTyping := true;
      Respond(path, step, content, r, later);
    }
  }
}
