# Feeling-and-flow chat engine in Dafny

This project models the dialogue engine of the feeling-and-flow chat bot. It covers:

- the chat provider's state and operations (`src/context/ChatContext.tsx`);
- the keyword lookup it calls for closing reflections (`src/data/responses.ts`);
- the record types (`src/types/chat.ts`).

The provider keeps an ordered list of sessions, a current-session id, a typing flag, a mobile-sidebar flag, a cycle flag and a cycle phase. In the model these are the fields of the class `ChatContext.ChatProvider`, and each provider operation is a method that updates them.

The decisions inside those operations are pure functions:

- the `(path, currentStep, text)` routing of a submission (`Dialogue.Decide`);
- the restart handshake;
- the user answers the cycle re-reads from history;
- the cycle's own transition table;
- the first-match keyword search.

Files and modules:

| file | module | contents |
|---|---|---|
| `chat_types.dfy` | `ChatTypes` | roles, paths, messages, sessions, the `\|\| 0` step reading |
| `text.dfy` | `Text` | `toLowerCase`, `includes`, `trim`, decimal `toString` |
| `responses.dfy` | `Responses` | both keyword tables verbatim, `findBestResponse` as a recursive first-match search |
| `response_facts.dfy` | `Fingerprints`, `ResponsesFacts` | properties of the tables: match order, track separation, unreachable fallback |
| `dialogue.dfy` | `Dialogue` | fixed texts, submission routing, restart handshake, user answers, cycle table |
| `sessions.dfy` | `Sessions` | `prev.map(...)` updates of the session list, the session invariant, the new session |
| `chat_context.dfy` | `ChatContext` | `class ChatProvider` and its operations |

Each `setTimeout` body runs atomically, right after the step that schedules it. Clock readings (`now`, `later`) and `Math.random()` draws (`r`, with `0 <= r < 1`) are parameters. A message id is the decimal text of its clock reading, as `Date.now().toString()` gives it.

The model follows the code as written. Some of it differs from what the comments and prompts suggest:

- `createNewSession` has no debounce.
- `switchSession` accepts an id that no session carries, which leaves no current session.
- A cycle starts whenever the secondary answer is non-empty.
- The "primary: no" cycle answer leaves `currentStep` as it is.
- The "primary: yes" cycle answer sets step 2 whatever the path.
- The `case 5` (feeling) and `case 6` (goal) arms of the submission switch sit behind the restart check, so no submission reaches them (`Dialogue.ArmOf`). The closing reflection and the "start another conversation?" offer are therefore never sent. The answer to the last scripted prompt already goes to the restart handshake.
- The `default:` arms need a step beyond the path's last step. Every session the provider holds keeps its step within that bound (`Sessions.WellFormed`), so the keyword lookup is never reached from a session the provider holds. It is modelled and proved on its own.
- On the feeling path, the "primary feeling" the cycle re-reads is the first user message of the whole history, whatever it answered. It may be the step-0 selection text, an unrecognised step-0 text, the answer to the feeling question when the path was picked without a message, or a message from before a restart.
- `handleCycleResponse` with no pending question raises the typing flag and does not lower it. Only a later `startCycleCheck` on a session with a non-empty secondary answer lowers it again.
- A history is not "the user's messages, each answered by the bot". The bot always writes more messages than the user (`Sessions.BotsOutnumberUsers`), but it can be more than one ahead. Choosing a path with the "How you feel" or "Start with a goal" button (Index.tsx:72-88) calls `selectPath`, which adds the path's question without any user message. A new session then holds two bot messages and none from the user (`Sessions.ButtonSelectionUnbalanced`). Every cycle question from `startCycleCheck` and `handleCycleResponse` is also a bot message without a user message.

## Model

| member | source | states |
|---|---|---|
| ChatTypes.StepOf | src/types/chat.ts:19-20 | an absent `currentStep` reads as 0, a present one as itself (the `\|\| 0` at ChatContext.tsx:418) |
| Text.Lower | src/data/responses.ts:202 | lowercasing keeps the length and maps each character through the capital-to-small table |
| Text.LowerIdempotent | src/data/responses.ts:202 | lowercasing an already lowercased text changes nothing |
| Text.Contains | src/data/responses.ts:212 | `includes` is true exactly when the keyword occurs at some index of the text |
| Text.MissingCharNotContained | src/data/responses.ts:212 | a keyword holding a character the text lacks is not included in it |
| Text.Trim | src/context/ChatContext.tsx:290 | the trimmed text is a slice of the input with only whitespace outside it, and neither starts nor ends with whitespace |
| Text.TrimOfTrimmed | src/components/ChatInput.tsx:31-33 | trimming text the input box already trimmed changes nothing |
| Text.NatToString | src/context/ChatContext.tsx:50 | the decimal text of a clock reading is non-empty, all digits, without a leading zero |
| Text.DecimalRoundTrip | src/context/ChatContext.tsx:50 | reading the decimal text back gives the clock reading |
| Text.NatToStringInjective | src/context/ChatContext.tsx:50 | distinct clock readings give distinct ids |
| Responses.FeelingTableWellFormed | src/data/responses.ts:15-105 | every feeling category has at least one response, and no response is empty |
| Responses.GoalTableWellFormed | src/data/responses.ts:108-198 | every goal category has at least one response, and no response is empty |
| Responses.TablesWellFormed | src/data/responses.ts:15-198 | both tables offer only non-empty responses |
| Responses.PickIndex | src/data/responses.ts:214 | `Math.floor(r * n)` for `0 <= r < 1` is an index below `n` |
| Responses.FirstKeyword | src/data/responses.ts:209-216 | the inner loop returns the first keyword, in order, that is not "default" and occurs in the input; none when no keyword does |
| Responses.FirstMatch | src/data/responses.ts:208-217 | the outer loop returns the first category with a matching keyword and that keyword, with no earlier category or keyword matching; none when no category matches |
| Responses.FindDefault | src/data/responses.ts:220-222 | `find` returns the first category whose keywords include "default" |
| Responses.FeelingDefaultFound | src/data/responses.ts:97-104 | the feeling table's default category is its last one (index 10), and the only one |
| Responses.GoalDefaultFound | src/data/responses.ts:190-197 | the goal table's default category is its last one (index 10), and the only one |
| Responses.DefaultCategoryFound | src/data/responses.ts:220-225 | for either track, the default search finds category 10 |
| Responses.Lookup | src/data/responses.ts:207-229 | on any table: the result comes from the first matching category; with no match, from the default category; with neither, it is exactly the fallback text |
| Responses.FindBestResponse | src/data/responses.ts:201-230 | the answer is a non-empty response of the selected track's table. It comes from the first category (in declared order) whose keyword occurs in the lowercased input, or from the default category when none does |
| Fingerprints.DisjointBySignatures | src/data/responses.ts:205 | two tables whose responses carry fingerprints from disjoint sets share no response |
| Fingerprints.ResponsesAreLong | src/data/responses.ts:15-198 | every response of either table has at least 97 characters |
| ResponsesFacts.UnhappyMatchesHappy | src/data/responses.ts:17-25 | "unhappy" matches the happy category through "happy" before the sad category's "unhappy" is looked at |
| ResponsesFacts.HomeworkMissesHealth | src/data/responses.ts:110 | no health keyword occurs in "homework" |
| ResponsesFacts.HomeworkHitsCareer | src/data/responses.ts:118 | the first career keyword found in "homework" is "work", the third |
| ResponsesFacts.HomeworkFirstMatch | src/data/responses.ts:110-158 | "homework" matches career through "work" before the home category is reached |
| ResponsesFacts.HomeworkMatchesCareer | src/data/responses.ts:118-158 | the goal lookup of "homework" answers with a career response |
| ResponsesFacts.TracksDisjoint | src/data/responses.ts:205 | no response text appears in both tables, so a lookup never answers from the other track |
| ResponsesFacts.FallbackNeverReturned | src/data/responses.ts:220-229 | the literal fallback text is never the answer, for any input, track and draw |
| ResponsesFacts.LookupIgnoresCase | src/data/responses.ts:202 | looking up the lowercased input gives the same answer as looking up the input |
| Dialogue.ArmOf | src/context/ChatContext.tsx:355-496 | the restart check wins exactly at feeling 5 and goal 6; step 0 is path choice; scripted steps are feeling 1-4 and goal 1-5; the `case 5`/`case 6` arms are never reached; `default:` needs a step past the path's last one |
| Dialogue.PathQuestion | src/context/ChatContext.tsx:259-264 | `selectPath` asks a non-empty question for feeling and for goal, and appends the empty text for `null` |
| Dialogue.ScriptPrompt | src/context/ChatContext.tsx:439-495 | the fixed "now" and "opposite" questions sit at feeling 2/3 and goal 3/4; every other scripted prompt quotes the user's answer |
| Dialogue.ClassifyPath | src/context/ChatContext.tsx:424-435 | feeling iff the lowercased text contains "feel" or is "1"; goal iff not feeling and it contains "goal" or is "2"; otherwise unrecognised |
| Dialogue.AnyContained | src/context/ChatContext.tsx:293 | `some(... includes ...)` is true iff some word occurs in the text |
| Dialogue.RestartHandshake | src/context/ChatContext.tsx:289-349 | a restart iff the trimmed, lowercased answer contains a positive word; otherwise one of the four goodbyes |
| Dialogue.Decide | src/context/ChatContext.tsx:352-518 | the handshake exactly at the restart steps. At step 0 the classified path is selected, or the clarification is sent with step 0 kept when the text is unrecognised. A scripted step gets its prompt and the step goes up by one. Without a path, a non-zero step gets the empty text with the step kept. Past the bound, the path's lookup answers with the step kept. No reply takes the step past the path's bound |
| Dialogue.ScriptClimbs | src/context/ChatContext.tsx:438-496 | from any scripted step, one answer per remaining step climbs exactly one step at a time to the restart step |
| Dialogue.UserContents | src/context/ChatContext.tsx:83 | the filtered user texts are no more than the messages |
| Dialogue.UserContentsAppend | src/context/ChatContext.tsx:83 | appending a message adds its text to the user texts exactly when the user wrote it |
| Dialogue.UserAnswers | src/context/ChatContext.tsx:80-109 | feeling: user texts 0 and 1; goal: user texts 1 and 2, over the whole history; "" for a missing index, no path or no session |
| Dialogue.AnswersIgnoreBotMessages | src/context/ChatContext.tsx:80-109 | appending a bot message leaves the answers unchanged |
| Dialogue.CycleAnswer | src/context/ChatContext.tsx:155-252 | nothing without a pending question. Secondary yes repeats the secondary question and stays in the secondary phase. Secondary no asks about the primary answer and moves to the primary phase. Primary yes sends the echo and resumes step 2. Primary no sends the "now" prompt. The primary answers end the cycle |
| Dialogue.SecondaryYesRepeats | src/context/ChatContext.tsx:159-179 | any number of "yes" answers to the secondary question repeat the identical question and never leave the phase |
| Sessions.Replace | src/context/ChatContext.tsx:393-410 | the list keeps its length and order; exactly the sessions whose id equals the current id get the edit |
| Sessions.CurrentIndex | src/context/ChatContext.tsx:44-46 | the index `find` stops at: the first session carrying the set current id; none for an unset id or when no session carries it |
| Sessions.FirstWithId | src/context/ChatContext.tsx:45 | the first index from `from` on whose session has the id |
| Sessions.CurrentSession | src/context/ChatContext.tsx:44-46 | null exactly when the id is unset or no session carries it; otherwise a listed session with that id |
| Sessions.ReplaceOne | src/context/ChatContext.tsx:393-410 | with distinct ids, an update for session k's id changes session k and no other |
| Sessions.ReplaceMissing | src/context/ChatContext.tsx:72-77 | an update for an id no session carries changes nothing |
| Sessions.NewSession | src/context/ChatContext.tsx:49-63 | the new session is titled "Chat n+1", holds the greeting alone, has no path and step 0, and is well formed |
| Sessions.AllWellFormedAt | src/context/ChatContext.tsx:29 | the recursive invariant over the list is the same as every session being well formed |
| Sessions.BotEditKeepsWellFormed | src/context/ChatContext.tsx:125-142 | appending a clock-id bot message keeps a session well formed while the step stays within bound |
| Sessions.ReplaceKeepsWellFormed | src/context/ChatContext.tsx:266-285 | a bot-message update that sets step at most 2, or leaves path and step alone, keeps every session well formed and the ids distinct |
| Sessions.ReplaceKeepsIds | src/context/ChatContext.tsx:125-142 | no update changes an id, so distinct ids stay distinct |
| Sessions.OutcomeEdit | src/context/ChatContext.tsx:500-518 | every outcome of a submission appends exactly one bot message whose id comes from its clock reading |
| Sessions.Applied | src/context/ChatContext.tsx:393-410 | the `{...session}` update keeps id, title and creation time, appends exactly the one message, sets `updatedAt` to its time, and keeps path and step unless given |
| Sessions.Exchange | src/context/ChatContext.tsx:393-518 | one exchange keeps the session's id, title and creation time and appends exactly the user message and then the outcome's bot message |
| Sessions.ExchangeEffect | src/context/ChatContext.tsx:256-345 | per outcome: a selection sets the path, step 1 and the path's question; a reply sets its step; a restart gives path null, step 0 and the greeting; a farewell leaves path and step alone |
| Sessions.Turn | src/context/ChatContext.tsx:352-522 | the session after one submission keeps its id and has exactly two more messages |
| Sessions.TurnAtChoice | src/context/ChatContext.tsx:424-435 | at step 0 a recognised choice sets that path, step 1 and its question; anything else gets the clarification at step 0 with the path kept |
| Sessions.TurnInScript | src/context/ChatContext.tsx:438-496 | a scripted step keeps the path, moves one step on and sends that step's prompt |
| Sessions.TurnAtRestart | src/context/ChatContext.tsx:355-389 | at the restart step, a positive word in the trimmed, lowercased answer gives path null, step 0 and the greeting; any other answer gets a goodbye with path and step unchanged |
| Sessions.ExchangeKeepsWellFormed | src/context/ChatContext.tsx:393-410 | a user message then a bot message keeps a session well formed and adds exactly those two messages |
| Sessions.TurnKeepsWellFormed | src/context/ChatContext.tsx:352-522 | a submission adds exactly the user message with the text, then exactly one bot message, and keeps the session well formed |
| Sessions.TwoEdits | src/context/ChatContext.tsx:393-410 | the two updates of one submission change only the current session and keep ids distinct |
| Sessions.SubmitOne | src/context/ChatContext.tsx:393-518 | both updates of a submission turn the current session into its exchange and leave the list well formed |
| Sessions.AddSession | src/context/ChatContext.tsx:65 | appending the new session for a fresh clock reading keeps the list well formed with distinct ids |
| Sessions.NewSessionFound | src/context/ChatContext.tsx:65-66 | after the append, the new id finds the new session |
| Sessions.Count | src/context/ChatContext.tsx:83 | a role's message count is at most the history length |
| Sessions.BotsOutnumberUsers | src/context/ChatContext.tsx:54-59 | in every session history the bot has written more messages than the user |
| Sessions.PrefixBalance | src/context/ChatContext.tsx:393-410 | every prefix ending on a bot message has more bot than user messages; one ending on a user message has at least as many |
| Sessions.CountSnoc | src/context/ChatContext.tsx:83 | appending a message raises its role's count by one and leaves the other's |
| Sessions.ButtonSelectionUnbalanced | src/context/ChatContext.tsx:266-285 | a path chosen by button on a new session leaves two bot messages and no user message, so the bot can be more than one message ahead |
| ChatContext.ChatProvider.constructor | src/context/ChatContext.tsx:29-34 | no sessions, no current id, every flag down, no cycle phase, and the invariant holds |
| ChatContext.ChatProvider.CreateNewSession | src/context/ChatContext.tsx:49-69 | appends exactly the new session, makes it current (and found), clears the cycle, keeps the invariant |
| ChatContext.ChatProvider.SwitchSession | src/context/ChatContext.tsx:72-77 | sets the id unchecked, closes the sidebar, clears the cycle, leaves the sessions alone; a current session exists iff some session has the id |
| ChatContext.ChatProvider.SetMobileSidebarOpen | src/context/ChatContext.tsx:32 | only the sidebar flag changes |
| ChatContext.ChatProvider.StartCycleCheck | src/context/ChatContext.tsx:112-145 | no-op without a session or a secondary answer. Otherwise it appends "Do you still feel {secondary}?" to the current session and enters the secondary phase |
| ChatContext.ChatProvider.HandleCycleResponse | src/context/ChatContext.tsx:148-253 | the answers are read at call time and the cycle table is applied. With no pending question nothing is appended and the typing flag stays raised |
| ChatContext.ChatProvider.SelectPath | src/context/ChatContext.tsx:256-286 | with an id set, the current session gets the path, step 1 and the path's question; without one, nothing changes |
| ChatContext.ChatProvider.HandleConversationRestart | src/context/ChatContext.tsx:289-349 | appends the greeting with path null and step 0, or a goodbye, as the handshake decides, and reports the answer handled |
| ChatContext.ChatProvider.Respond | src/context/ChatContext.tsx:416-519 | the timer callback applies the decided outcome to the current session, through `selectPath` or `handleConversationRestart` where the source calls them, and lowers the typing flag |
| ChatContext.ChatProvider.SendMessage | src/context/ChatContext.tsx:351-522 | for trimmed, non-empty text sent while the bot is not typing: a no-op without a current session. Otherwise the current session becomes its turn for the text and no other session changes. The cycle, the current id and the sidebar flag stay as they were |

## Left out

- Rendering, focus handling, scrolling and layout (`Index.tsx`, `Sidebar.tsx`, `ChatMessage.tsx`, `ChatInput.tsx`). The input box trims the text and submits only when the result is non-empty and the box is enabled. The box is disabled exactly while the bot is typing (Index.tsx:43, ChatInput.tsx:31-33). Both gates are `SendMessage`'s precondition (`Trimmed`, non-empty, `!isTyping`), so while `isTyping` stays raised nothing can be sent. That includes the case after a `handleCycleResponse` with no pending question: text cannot be sent until a `startCycleCheck` on a session with a non-empty secondary answer lowers the flag again (ChatContext.tsx:119-143).
- The React plumbing: the context object, `useState`, and `useChat`'s throw outside a provider. The first-load `useEffect` that calls `createNewSession` when there is no session is left out too; `CreateNewSession` models the call itself.
- Timer delays and interleavings. Each `setTimeout` body runs atomically right after the step that schedules it, so no other operation runs between a submission and its reply.
- `Date.now()` and `new Date()` are the parameters `now` and `later`. Two sessions created in the same millisecond would share an id, which the source does not prevent.
- ChatContext.ChatProvider.CreateNewSession: requires a clock reading that no existing session id matches. Id collisions are out of scope.
- `Math.random()` is the parameter `r` in `[0, 1)`; floating-point rounding of `r * n` is not modelled.
- Text.Lower: maps only ASCII and Latin-1 capitals, not the full Unicode case table of `toLowerCase`. Keywords and positive words are ASCII, but the gap is observable. U+212A KELVIN SIGN lowercases to ASCII "k", so "O\u212A" contains "ok" and restarts in the source but gets a farewell here. U+0130 lowercases to two characters in the source and to one character here.
- Timestamps are natural numbers of milliseconds. `createdAt`, `updatedAt` and message timestamps take the clock reading of the step that writes them, as `new Date()` would.
- The long response texts are kept verbatim. One of them holds a mis-decoded dash sequence, and it is reproduced character for character.
