# at-backend chat core, modelled in Dafny

This project models the core of at-backend: a backend that holds long-lived chats with an AI agent.
- Each chat has one **agent driver** (`AgentSession`, agent.py). The driver feeds user texts from an input queue to one long-running SDK query, classifies what the SDK emits into output events, and puts them on an output queue. A `None` sentinel ends each queue.
- A **session** (`Session`, main.py) per chat relays those events to every subscribed socket:
  - it announces each tool use with a status phrase;
  - it stamps every event with the chat id;
  - it stores assistant texts in the in-memory **chat store** (`ChatStore`, main.py).
- A process-wide **registry** creates sessions lazily and removes them when their chat is deleted.
- Two small pure helpers are modelled as well:
  - the slug maker of the research-project script (`_sanitize_repo_name`, test.py);
  - the single-turn runner (`run_agent`, agent/runner.py): its option defaults and its fold, join and strip of the reply text.

Modules and files:

| module | file | models |
|---|---|---|
| `Wrappers` | wrappers.dfy | `Option` (Python's `None` versus a value), `Result` (an operation that raises) |
| `Strings` | strings.dfy | Python's `split`, `join`, `filter(None, …)`, `strip`, `str.isspace` and `<=` on `str` |
| `Sdk` | sdk.dfy | the SDK's message and content-block kinds, as data |
| `Agent` | agent.dfy | `AgentSession`: queues, classification, the run loop and its sentinel, the prompt and output streams |
| `ChatStore` | chat_store.dfy | `ChatStore`, `Chat`, `ChatMessage`, the title rule, the newest-first listing |
| `Sessions` | sessions.dfy | `_agent_status_message`, `Session` (`_listen`, `_wrap`, `_broadcast`, `send_message`, `subscribe`, `unsubscribe`, `close`), the `sessions` registry |
| `ResearchProject` | research_project.dfy | `_sanitize_repo_name` and the default repository name |
| `Runner` | runner.dfy | `run_agent` |
| `Scenarios` | scenarios.dfy | typical flows on concrete values |

How the model is built:
- **Objects as classes.** Objects whose fields the source updates in place are Dafny classes: the store, the driver, the session and the registry. Their dictionaries, sets and queues are `map`, `set` and `seq` fields that the methods reassign. Loops in the source are `while` loops with invariants. A method's postcondition ties the new state to a specification function of the old state, for example:
  - `Drain` gives what one scheduler slice of the listener does;
  - `RunEvents` gives everything one run of the driver emits.
  The properties are lemmas about those functions.
- **Asyncio tasks as explicit steps:**
  - `AgentSession.RunQuery` is one whole run of the `_run_query` task.
  - `Session.ListenStep` is one scheduler slice of the `_listen` task. It relays what the output queue holds and then waits (or ends).
  - `Close` cancels a task by marking it finished. A task cancelled before its first slice never runs its body.
- **Outside inputs as parameters.** The SDK's answer is a finite sequence of `Sdk.Message` values plus how the stream ended (`Completed`, `Cancelled` or `Raised`). Message ids, clock readings and failing sockets are parameters too:
  - ids and clock readings are `nat -> string` functions indexed by the step that draws them, or plain values for one step;
  - failing sockets are the set `broken`.
- **Broadcasts are logged.** Each session has a ghost `log` of every payload `_broadcast` was asked to send. Each method that broadcasts states that the log grows by exactly the payloads it returns, so a returned `sent` is what went out to the sockets.
- **Timestamps** are strings ordered as Python orders `str`.

Behaviour of the code that a reader may not expect, which the model keeps:
- `AgentSession.close` queues another `None` on every call (agent.py:119). It is not a no-op after the first call.
- `send_message` after `close` still queues the text (agent.py:105-107).
- The listener task is created only by a chat message (main.py:176-177), not by a subscribe.
- Once the listener has ended (stream end, error or cancellation), `_listening` stays set, and `_is_listening` is true unless the listener was cancelled before its first run (main.py:187-188), in which case main.py:131 never ran and it stays false. Either way the session never listens again, and this includes after an error (main.py:128-131, main.py:176-177).
- `Session.close` does not clear the subscriber set (main.py:185-188).
- A first user message that reads exactly "New Chat" leaves the title "New Chat", so a later user message can still rename the chat (main.py:90-91, `ChatStore.NewChatMessageKeepsDefault`).

## Model

| member | source | states |
|---|---|---|
| ChatStore.InitialTitle | main.py:59 | a missing or empty title gives "New Chat"; any other title is kept; the result is never empty |
| ChatStore.DerivedTitle | main.py:91 | the first 50 characters of the content, followed by "..." exactly when the content is longer; never more than 53 characters |
| ChatStore.TitleAfter | main.py:90-91 | the title changes only when it is "New Chat" and the role is "user", and then it becomes the derived title |
| ChatStore.AssistantKeepsTitle | main.py:90 | an assistant message never changes a title |
| ChatStore.RetitledOnce | main.py:90-91 | once a user message renamed a chat to something other than "New Chat", no later message renames it |
| ChatStore.NewChatMessageKeepsDefault | main.py:90-91 | a user message reading "New Chat" leaves the default title in place |
| ChatStore.Touched | main.py:87-91 | a chat after a message: same id and creation time, `updatedAt` is the message's timestamp, title as `TitleAfter` says |
| ChatStore.ChatStore.constructor | main.py:51-53 | the store starts with no chats and no message lists |
| ChatStore.ChatStore.CreateChat | main.py:55-63 | stores a chat under the given id with `InitialTitle` and both stamps equal to the clock reading, and gives it an empty message list; nothing else changes; the key sets stay equal |
| ChatStore.ChatStore.GetChat | main.py:65-66 | a chat is returned exactly when the id is stored, and it is the chat with that id |
| ChatStore.ChatStore.GetMessages | main.py:94-95 | an unknown chat has no messages; every returned message names the chat |
| ChatStore.ChatStore.DeleteChat | main.py:71-73 | true exactly when the chat existed; afterwards neither map holds it, `GetChat` gives None and `GetMessages` gives [] |
| ChatStore.ChatStore.AddMessage | main.py:75-92 | unknown chat: an error and both maps unchanged; otherwise exactly one message with the given role, content, id and time is appended to that chat's list, the chat is `Touched`, and no other chat or list changes |
| ChatStore.ChatStore.GetAllChats | main.py:68-69 | every stored chat exactly once (no repeats, as many as stored), ordered by `updatedAt` newest first |
| ChatStore.InsertByStamp | main.py:69 | one insertion step of the sort: the chat goes after every chat at least as recent and before the first older one; the order, the elements and the absence of repeats are kept |
| Strings.LexLeTotal | main.py:69 | the string order used for timestamps is total |
| Strings.LexLeTransitive | main.py:69 | the string order used for timestamps is transitive |
| Strings.LexLe | main.py:69 | Python's `<=` on `str`: in particular, a prefix of a string precedes it |
| Strings.LexLeAntisymmetric | main.py:69 | two timestamps each at most the other are equal |
| Sessions.AgentStatusMessage | main.py:101-114 | the table phrase for the eight known tools, "Using " + the name otherwise |
| Sessions.EventPayloads | main.py:135-144 | a tool use is broadcast as its status and then the event; any other event alone; both carry the chat id |
| Sessions.Drain | main.py:128-156 | one listener slice always ends waiting or finished, and it consumes at least one queue entry when the queue is not empty |
| Sessions.Records | main.py:155 | one assistant record per stored text, in order, each with the id and clock reading drawn for it |
| Sessions.MessagesAfter | main.py:86 | appending records changes only the list of that chat, and only when the chat is stored |
| Sessions.ChatsTouched | main.py:87-89 | storing messages changes no chat other than the target, and the key set stays the same |
| Sessions.MessagesAfterTwice | main.py:86 | appending twice is appending the concatenation |
| Sessions.ChatsTouchedTwice | main.py:87-89 | touching twice is touching with the concatenation |
| Sessions.Fanout | main.py:133-144 | the broadcasts for a list of driver events, event by event in order; its contract is given by `FanoutAppend`, `ToolUseAnnounced`, `StatusAnnounces`, `FanoutStamped` and `FanoutEvents` |
| Sessions.Stored | main.py:154-155 | an assistant message adds its content to the chat; any other event adds nothing |
| Sessions.StoreError | main.py:147-150 | the store's rejection is broadcast as an error event stamped with the chat id |
| Sessions.FanoutAppend | main.py:133-144 | the relayed stream of a concatenation is the concatenation of the relayed streams: event order is kept |
| Sessions.ToolUseAnnounced | main.py:135-144 | every tool-use event is broadcast right after the status naming its tool |
| Sessions.StatusAnnounces | main.py:135-144 | every status is broadcast right before the tool-use event it names |
| Sessions.FanoutStamped | main.py:153 | every relayed payload carries the session's chat id |
| Sessions.FanoutEvents | main.py:144 | leaving out the statuses gives back the driver's events unchanged and in order: nothing is lost or duplicated |
| Sessions.DrainKnown | main.py:128-156 | for a stored chat, a slice relays every event up to the sentinel, stores every assistant text among them, leaves what follows the sentinel, and ends exactly when it met the sentinel |
| Sessions.DrainUnknown | main.py:147-150 | for an unknown chat nothing is stored, and a slice that meets an assistant message ends with the store's error as its last broadcast |
| Sessions.UntilAssistant | main.py:133-155 | the events a listener relays before the first assistant message; never more than it was given |
| Sessions.DrainUnknownSent | main.py:133-150 | for an unknown chat, a slice that meets an assistant message broadcasts exactly the fan-out of the events before it, then the store's error, and ends |
| Sessions.DrainUnknownLikeKnown | main.py:133-156 | a slice that meets no assistant message does the same whether or not the store holds the chat |
| Sessions.RelayWholeRun | main.py:128-156 | a whole driver run seen by the listener of a stored chat: all events relayed in order with tool uses announced, all assistant texts stored, then the listener ends with the queue empty |
| Sessions.Session.constructor | main.py:121-126 | a new session has no subscribers, a fresh idle driver, no listener, and nothing broadcast yet |
| Sessions.Session.Subscribe | main.py:179-180 | the handle is added to the subscriber set (adding it twice changes nothing) |
| Sessions.Session.Unsubscribe | main.py:182-183 | the handle is removed; removing an absent handle changes nothing |
| Sessions.Session.Broadcast | main.py:158-166 | every subscriber present at the start is attempted; the dead list holds exactly the failed ones; the new set is the old set minus exactly those; the payload is appended to the session's broadcast log |
| Sessions.Session.HandleEvent | main.py:135-156 | a tool use is announced first; an assistant message is stored, and for an unknown chat the store's error is broadcast instead and the relaying fails; otherwise the event is broadcast with the chat id; the store changes as `MessagesAfter` and `ChatsTouched` say; the broadcast log grows by exactly the returned payloads |
| Sessions.Session.RelayNext | main.py:133-156 | one turn of the `async for`: it waits on an empty queue, ends on the sentinel or a rejected message, and otherwise handles one event, each as one step of `Drain`; the broadcast log grows by exactly the returned payloads |
| Sessions.Session.Relay | main.py:133-150 | the `async for`: broadcasts exactly `Drain`'s payloads, leaves `Drain`'s rest in the queue, takes `Drain`'s outcome, and stores `Drain`'s texts; the broadcast log grows by exactly those payloads |
| Sessions.Session.ListenStep | main.py:128-150 | a listener whose session already listens returns at once, ending, with the session still marked listening and nothing else changed; otherwise it marks the session listening, starts the driver, and relays as `Relay` does; the broadcast log grows by exactly the returned payloads; the driver's input queue and closed flag are unchanged |
| Sessions.Session.SendMessage | main.py:168-177 | unknown chat: an error, nothing broadcast and nothing changes; otherwise the user message is stored, exactly one `user_message` payload with the chat id is broadcast (and logged), queued for the driver, and the listener is created only when none was created before; the driver's closed flag and output queue are unchanged |
| Sessions.Session.Close | main.py:185-188 | closes the driver and finishes a listener that has not finished |
| Sessions.Registry.constructor | main.py:191 | the registry starts empty |
| Sessions.Registry.GetSession | main.py:194-197 | the first lookup of an id creates a fresh session for it, with no subscribers, no listener, an empty broadcast log and an idle driver whose queues are empty, with no task, that is not closed; later lookups return the same instance and change nothing; the session returned is always consistent, so it can be used at once |
| Sessions.Registry.DeleteChat | main.py:230-237 | only when the store held the chat is its session closed, as `Session.Close` does it, and its entry removed: the driver is closed, one sentinel is queued, a pending driver task is cancelled, a live listener ends, and the output queue, subscribers and broadcast log are unchanged; otherwise the registry and the session are unchanged; the registry stays valid |
| Sessions.Registry.Disconnect | main.py:279-281 | a disconnecting socket is unsubscribed from every session; only the subscriber sets change, the registry's keys are kept, and it stays valid |
| Agent.UserTurns | agent.py:39-44 | one user turn per text, in order, with role "user" and that content |
| Agent.BlockEvent | agent.py:70-83 | a text block gives an assistant message, a tool-use block a tool-use event with name, id and input; other blocks give nothing |
| Agent.ResultEvent | agent.py:84-92 | success exactly when `is_error` is present and false; the cost is passed through; a missing duration is 0 |
| Agent.BlockEvents | agent.py:70-83 | each block gives at most one event (block order is kept, by `BlockEventsAppend`) |
| Agent.Classify | agent.py:69-92 | a result message gives exactly one event, a result event; an assistant message at most one event per block |
| Agent.Classified | agent.py:66-92 | the events of all messages in stream order; its contract is given by `ClassifiedAppend` and `ClassifiedHasNoError` |
| Agent.RunEvents | agent.py:65-99 | a session already closed emits nothing; the rest is stated by `RunErrorCount` and `RunIsReadThenEnds` |
| Agent.TakeUntilNone | agent.py:111-115 | the items a reader takes before the first `None`: never more than the queue holds (what they are is stated by `SomesThenQueue` and `ReadStopsAtSentinel`) |
| Agent.DropThroughNone | agent.py:111-115 | what is left once the reader has taken the first `None`: never longer than the queue |
| Agent.BlockEventsAppend | agent.py:70-83 | classification keeps block order |
| Agent.ClassifiedAppend | agent.py:66-92 | classification keeps message order |
| Agent.ClassifiedHasNoError | agent.py:66-92 | classifying messages never produces an error event |
| Agent.RunErrorCount | agent.py:93-97 | a run emits one error event, as its last event, when the SDK raised and the session was not closed, and none otherwise (none on cancellation) |
| Agent.SomesThenQueue | agent.py:112-115 | items in front of a queue are read first and change nothing after them |
| Agent.TakeUntilNoneAppend | agent.py:107 | an item appended to a queue without sentinel is read after everything queued before it |
| Agent.ReadStopsAtSentinel | agent.py:36-38 | a reader stops at the first sentinel and never reads what follows it |
| Agent.SentinelOnlyLast | agent.py:98-99 | a run's emissions followed by its sentinel hold `None` at the last place only |
| Agent.RunIsReadThenEnds | agent.py:93-99 | a reader of a run's output reads exactly the run's events and then stops, with nothing left |
| Agent.AgentSession.constructor | agent.py:27-31 | both queues empty, no task, not closed |
| Agent.AgentSession.Start | agent.py:101-103 | a task is created only when none exists; later calls change nothing |
| Agent.AgentSession.SendMessage | agent.py:105-107 | starts the session and appends the text at the end of the input queue, keeping everything before it |
| Agent.AgentSession.PromptStream | agent.py:33-46 | yields the queued texts up to the first `None`, in order, as user turns, and leaves what follows; a closed session yields nothing |
| Agent.AgentSession.RunQuery | agent.py:48-99 | the run task runs once and appends exactly the run's events followed by exactly one sentinel, however the stream ends |
| Agent.AgentSession.ConsumeStream | agent.py:66-92 | every message is classified onto the output queue in order, unless the session is closed, which breaks out before the first message |
| Agent.AgentSession.EndRun | agent.py:93-99 | a raised error adds one error event unless the loop broke or the session is closed; cancellation adds none; the sentinel is always appended last |
| Agent.AgentSession.EmitMessage | agent.py:69-92 | one message's events are appended in block order |
| Agent.AgentSession.PullOutput | agent.py:112 | takes the head of the output queue: an event, the sentinel, or nothing on an empty queue |
| Agent.AgentSession.GetOutputStream | agent.py:109-115 | starts the session, yields the output events up to the first `None` in order, and leaves what follows |
| Agent.AgentSession.Close | agent.py:117-121 | sets the closed flag, appends one `None` to the input queue on every call, and cancels an unfinished task |
| ResearchProject.Lower | test.py:134 | upper-case ASCII letters become lower-case; every other character is kept |
| ResearchProject.LowerAll | test.py:134 | lowers every character and keeps the length |
| ResearchProject.Prefix | test.py:134 | Python's `[:50]`: the whole string when it is short enough, otherwise its first 50 characters |
| ResearchProject.IsAlnum | test.py:135 | a character is alphanumeric exactly when lowering it gives a lower-case letter or a digit |
| ResearchProject.HyphenateAll | test.py:135 | alphanumeric characters are kept; every other character becomes '-' |
| ResearchProject.CollapseHyphens | test.py:136 | collapsing hyphens never lengthens the name and leaves no '-' at either end and no two '-' adjacent |
| ResearchProject.CollapseChars | test.py:136 | collapsing keeps only characters of its input, plus '-' |
| ResearchProject.CollapseSlug | test.py:136 | a name already in that form is unchanged by collapsing |
| ResearchProject.CollapsedIsSlug | test.py:134-136 | a lower-cased, hyphenated prefix of at most 50 characters collapses to a slug unless nothing is left |
| ResearchProject.SanitizeRepoName | test.py:131-137 | every result is non-empty, at most 50 characters, made of lower-case letters, digits and '-', with no leading, trailing or doubled '-' |
| ResearchProject.SanitizeFixesSlugs | test.py:131-137 | any such slug sanitizes to itself |
| ResearchProject.SanitizeIdempotent | test.py:131-137 | sanitizing a sanitized name returns it unchanged |
| ResearchProject.SanitizeReadsPrefix | test.py:134 | only the first 50 characters of the topic affect the result |
| ResearchProject.RepoNameFor | test.py:25-26 | with no name given the sanitized topic is used; a given name is used as it is |
| Strings.Split | test.py:136 | `split` gives at least one piece, and no piece holds the separator |
| Strings.NonEmpty | test.py:136 | `filter(None, …)` keeps only non-empty pieces taken from its input |
| Strings.Join | test.py:136 | joining no pieces gives ""; otherwise its length is the pieces' total plus one per gap; `SplitJoin` and `JoinSplit` pin the content |
| Strings.JoinSplit | test.py:136 | joining the pieces of a split gives back the string |
| Strings.SplitJoin | agent/runner.py:29 | splitting parts joined by a separator none of them holds gives back the parts |
| Strings.JoinNoStraySep | test.py:136 | joining non-empty, separator-free pieces leaves no stray separator, and is empty only for no pieces |
| Strings.IsSpace | agent/runner.py:29 | `str.isspace` on one character, as ranges of code points; `IsSpaceTable` states which characters they hold |
| Strings.IsSpaceTable | agent/runner.py:29 | the ranges hold exactly the 29 characters for which Python's `isspace` holds |
| Strings.LStrip | agent/runner.py:29 | never longer than its input, and what is left does not start with whitespace |
| Strings.RStrip | agent/runner.py:29 | never longer than its input, and what is left does not end with whitespace |
| Strings.Strip | agent/runner.py:29 | `strip` never lengthens its input, and its result has no whitespace at either end |
| Strings.StripSlice | agent/runner.py:29 | `strip`'s result is the contiguous part of the input after the leading whitespace |
| Strings.StripCutsSpace | agent/runner.py:29 | everything `strip` cuts off on either side is whitespace |
| Strings.StripIdempotent | agent/runner.py:29 | stripping twice is stripping once |
| Runner.OptionsFor | agent/runner.py:18-22 | a missing or empty system prompt becomes "You are a helpful assistant.", and a missing or zero turn limit becomes 10; other values are used as given |
| Runner.RunAgent | agent/runner.py:12-29 | builds those options and returns the stripped newline-join of the text parts, or "" when there are none |
| Runner.BlockTexts | agent/runner.py:26-28 | at most one part per block, and one for every block exactly when all blocks are text blocks |
| Runner.TextParts | agent/runner.py:23-28 | a stream without assistant messages gives no parts |
| Runner.Reply | agent/runner.py:29 | "" when there are no parts; otherwise no longer than the newline-join of the parts, with no whitespace at either end |
| Runner.TextPartsAppend | agent/runner.py:24-28 | text parts are collected in stream order |
| Runner.BlockTextsEmpty | agent/runner.py:26-28 | a block list contributes a part exactly when it holds a text block |
| Runner.NoTextNoReply | agent/runner.py:23-29 | there are no parts, and so the reply is "", exactly when no assistant message holds a text block |
| Runner.PartsComeFromTextBlocks | agent/runner.py:25-28 | every part is the text of a text block of an assistant message, so other message and block kinds are ignored |
| Runner.ReplyIsTrimmedJoin | agent/runner.py:29 | the reply is the newline-joined text with only whitespace cut off on either side: a contiguous part of it, with whitespace only before and after |
| Runner.JoinedPartsSplitBack | agent/runner.py:29 | before stripping, the parts are separated by "\n": when no part holds a newline, splitting the joined text gives the parts back |
| Scenarios.DeleteTwice | main.py:71-73 | deleting a chat reports true, and deleting it again reports false |
| Scenarios.PromptsInOrder | agent.py:33-46 | two texts sent to the driver reach the SDK as two user turns in sending order |
| Scenarios.ChatTurnRelayed | main.py:128-156 | a concrete answer (a text, a dropped block, a result) is relayed as two stamped events, its text is stored, and the listener ends on the sentinel |
| Scenarios.ChatTurnStored | main.py:75-92 | a first user message "hi" names a new chat "hi", and the stored answer follows the user's message in the chat's list |

## Left out

- The FastAPI app is not modelled: its routes, the 404 responses, CORS, uvicorn start-up and the `/ws` handler's socket I/O (main.py:200-287). Only two parts of those handlers are in the model: the registry branch of deleting a chat and the unsubscribe-on-disconnect (`Sessions.Registry.DeleteChat`, `Sessions.Registry.Disconnect`). The subscribe-and-history and chat-message branches of the `/ws` handler are compositions of `GetSession`, `Subscribe`, `GetMessages` and `SendMessage`, and are not modelled as operations of their own.
- Concurrency is not modelled. Tasks run as explicit steps, and no asyncio interleavings are explored. In particular, the SDK's reading of prompts is not connected to the answer it gives: `RunQuery` takes the answer as a parameter.
- Agent.AgentSession.RunQuery: the run runs as one step. A cancellation in the middle of the stream shows up as the `Cancelled` ending, after the messages classified before it.
- Agent.AgentSession.PromptStream: stops when the input queue runs dry. The real stream waits for more input.
- Agent.AgentSession.GetOutputStream: stops when the output queue runs dry. The real stream waits for more output.
- Sessions.Session.Broadcast: whether a socket fails is fixed for the whole step, given as the set `broken`. Other exceptions of `send_json` are treated the same as a failed send, as the source does.
- Sessions.Session.SendMessage: the detached `user_message` broadcast task (main.py:170-174) runs at once, before the text is queued for the driver.
- Sessions.Session.ListenStep: `print(msg)` (main.py:134) is left out.
- Sessions.Session.ListenStep: the listener's generic exception arm (main.py:147-150) covers only the exception the model can raise, which is the store rejecting an assistant message of a deleted chat.
- ChatStore.ChatStore.GetChat: returns a copy of the chat, because `Chat` is a value here. In Python it returns the live object, which later messages mutate; that aliasing is not captured. The store's state is the same either way.
- ChatStore.ChatStore.GetAllChats: says nothing about the order of chats with equal `updatedAt`. Python's `sorted` keeps such ties in dictionary order.
- Agent.ResultEvent: an `is_error` attribute that is present but set to None cannot be expressed. Python would count it as success, since `not None` is true; the model only distinguishes a missing attribute from a boolean. The same holds for a `duration_ms` of None.
- ResearchProject.SanitizeRepoName, ResearchProject.Lower: characters are treated as ASCII. Python's `lower` and `isalnum` also act on non-ASCII letters and digits. Here those become '-'.
- Ids (`uuid4`) and clock readings (`datetime.now`) are parameters. Nothing relies on the clock being monotonic.
- The SDK's `query()` is an external library and is not modelled. Only its messages are modelled.
- The `ClaudeAgentOptions` constants (agent.py:49-64) and the skills overrides that `run_agent` passes (agent/runner.py:21) are left out.
- db.py, github_client.py and the skills package are not part of this model.
- test.py's prompt text, its message printing and its `main` are display code and are left out.
