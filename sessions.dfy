/** The chat sessions of main.py: one agent driver per chat, a set of subscribed sockets,
    and a listener that relays the driver's events to them. A socket send either works or
    fails; which sockets fail is given by the caller as the set of broken sockets. */
module Sessions {
  import opened Wrappers
  import Agent
  import ChatStore
  import Sdk

  /** A subscriber's socket. */
  type Handle = nat

  /** The status phrase shown while a known tool runs. */
  const StatusByTool: map<string, string> := map[
    "WebSearch" := "Searching the web",
    "WebFetch" := "Fetching a page",
    "Read" := "Reading a file",
    "Write" := "Writing a file",
    "Edit" := "Editing a file",
    "Bash" := "Running a command",
    "Glob" := "Searching for files",
    "Grep" := "Searching in files"
  ]

  /** `_agent_status_message`: the table phrase for a known tool, "Using <tool>" otherwise. */
  function AgentStatusMessage(toolName: string): (m: string)
    ensures toolName in StatusByTool ==> m == StatusByTool[toolName]
    ensures toolName !in StatusByTool ==> m == "Using " + toolName
  {
    if toolName in StatusByTool then StatusByTool[toolName] else "Using " + toolName
  }

  /** What a session sends to its subscribers, each stamped with the chat id. `Event` is a
      driver event with the chat id merged in; an error of the listener itself has the same
      shape as the driver's error event. */
  datatype Payload =
    | UserMessage(content: string, chatId: string)
    | AgentStatus(message: string, chatId: string)
    | Event(event: Agent.OutputEvent, chatId: string)

  /** The broadcasts for one driver event: a tool use is announced by a status first. */
  function EventPayloads(e: Agent.OutputEvent, chatId: string): (ps: seq<Payload>)
    ensures e.ToolUse? ==> ps == [AgentStatus(AgentStatusMessage(e.toolName), chatId), Event(e, chatId)]
    ensures !e.ToolUse? ==> ps == [Event(e, chatId)]
  {
    (if e.ToolUse? then [AgentStatus(AgentStatusMessage(e.toolName), chatId)] else []) + [Event(e, chatId)]
  }

  /** The broadcasts for a list of driver events, in event order. */
  function Fanout(es: seq<Agent.OutputEvent>, chatId: string): seq<Payload>
  {
    if es == [] then [] else EventPayloads(es[0], chatId) + Fanout(es[1..], chatId)
  }

  /** The driver events carried by a list of payloads, in order. */
  function Events(ps: seq<Payload>): seq<Agent.OutputEvent>
  {
    if ps == [] then [] else (if ps[0].Event? then [ps[0].event] else []) + Events(ps[1..])
  }

  /** The content stored for an event: assistant messages are kept in the chat. */
  function Stored(e: Agent.OutputEvent): (texts: seq<string>)
    ensures e.AssistantMessage? ==> texts == [e.content]
    ensures !e.AssistantMessage? ==> texts == []
  {
    if e.AssistantMessage? then [e.content] else []
  }

  /** The error broadcast when the store rejects an assistant message of an unknown chat. */
  function StoreError(chatId: string): (p: Payload)
    ensures p.Event? && p.event.Error? && p.chatId == chatId
  {
    Event(Agent.Error("Chat " + chatId + " not found"), chatId)
  }

  /** The state of a session's listener task: not created, created but not yet run, run and
      waiting for more output, finished (stream ended, cancelled or failed). */
  datatype ListenState = NotCreated | Created | Suspended | Finished

  /** What one slice of the listener does with the driver's output queue: the payloads it
      broadcasts, the assistant texts it stores, what is left in the queue and the state the
      listener is in afterwards. */
  datatype DrainResult = DrainResult(sent: seq<Payload>, stored: seq<string>, rest: seq<Option<Agent.OutputEvent>>, outcome: ListenState)

  function Prefixed(sent: seq<Payload>, stored: seq<string>, d: DrainResult): DrainResult
  {
    DrainResult(sent + d.sent, stored + d.stored, d.rest, d.outcome)
  }

  /** The listener reads the queue until it is empty (it then waits) or up to the sentinel (it
      then ends). When the chat is unknown to the store, the first assistant message raises
      inside the loop: an error is broadcast instead and the listener ends. */
  function Drain(q: seq<Option<Agent.OutputEvent>>, known: bool, chatId: string): (d: DrainResult)
    ensures !d.outcome.NotCreated? && !d.outcome.Created?
    ensures |d.rest| < |q| || (q == [] && d.rest == [])
  {
    if q == [] then DrainResult([], [], [], Suspended)
    else if q[0].None? then DrainResult([], [], q[1..], Finished)
    else if q[0].value.AssistantMessage? && !known then DrainResult([StoreError(chatId)], [], q[1..], Finished)
    else Prefixed(EventPayloads(q[0].value, chatId), Stored(q[0].value), Drain(q[1..], known, chatId))
  }

  /** The texts of the assistant messages among the events, in order. */
  function AssistantTexts(es: seq<Agent.OutputEvent>): seq<string>
  {
    if es == [] then [] else Stored(es[0]) + AssistantTexts(es[1..])
  }

  /** The assistant messages a listener stores, one per stored text, with the ids and clock
      readings the store draws for them in turn. */
  function Records(texts: seq<string>, chatId: string, ids: nat -> string, clock: nat -> string): (ms: seq<ChatStore.ChatMessage>)
    ensures |ms| == |texts|
    ensures forall k | 0 <= k < |ms| :: ms[k] == ChatStore.ChatMessage(ids(k), chatId, "assistant", texts[k], clock(k))
  {
    seq(|texts|, k requires 0 <= k < |texts| => ChatStore.ChatMessage(ids(k), chatId, "assistant", texts[k], clock(k)))
  }

  /** The record one event adds to the chat: an assistant message, stored with the id and
      clock reading drawn for it; nothing for any other event. */
  function StoredRecord(e: Agent.OutputEvent, chatId: string, msgId: string, now: string): seq<ChatStore.ChatMessage>
  {
    if e.AssistantMessage? then [ChatStore.ChatMessage(msgId, chatId, "assistant", e.content, now)] else []
  }

  /** The store's message lists after `added` was appended to the list of `chatId` (nothing
      changes when the store has no such chat). */
  function MessagesAfter(messages: map<string, seq<ChatStore.ChatMessage>>, chatId: string, added: seq<ChatStore.ChatMessage>)
    : (r: map<string, seq<ChatStore.ChatMessage>>)
    ensures r.Keys == messages.Keys
    ensures forall k | k in messages && k != chatId :: r[k] == messages[k]
    ensures chatId in messages ==> r[chatId] == messages[chatId] + added
  {
    if chatId in messages then messages[chatId := messages[chatId] + added] else messages
  }

  /** The store's chats after the messages `added` were stored for `chatId`: only that chat
      changes, its `updatedAt` becoming the timestamp of the last of them. Assistant
      messages leave its title alone. */
  function ChatsTouched(chats: map<string, ChatStore.Chat>, chatId: string, added: seq<ChatStore.ChatMessage>)
    : (r: map<string, ChatStore.Chat>)
    ensures r.Keys == chats.Keys
    ensures forall k | k in chats && k != chatId :: r[k] == chats[k]
  {
    if added != [] && chatId in chats then chats[chatId := chats[chatId].(updatedAt := added[|added| - 1].timestamp)] else chats
  }

  lemma MessagesAfterTwice(m: map<string, seq<ChatStore.ChatMessage>>, chatId: string, a: seq<ChatStore.ChatMessage>, b: seq<ChatStore.ChatMessage>)
    ensures MessagesAfter(MessagesAfter(m, chatId, a), chatId, b) == MessagesAfter(m, chatId, a + b)
  {
    if chatId in m {
      assert m[chatId] + a + b == m[chatId] + (a + b);
    }
  }

  lemma ChatsTouchedTwice(c: map<string, ChatStore.Chat>, chatId: string, a: seq<ChatStore.ChatMessage>, b: seq<ChatStore.ChatMessage>)
    ensures ChatsTouched(ChatsTouched(c, chatId, a), chatId, b) == ChatsTouched(c, chatId, a + b)
  {
    if b != [] {
      assert (a + b)[|a + b| - 1] == b[|b| - 1];
    } else {
      assert a + b == a;
    }
  }

  lemma RecordsStep(texts: seq<string>, e: Agent.OutputEvent, chatId: string, ids: nat -> string, clock: nat -> string)
    ensures Records(texts + Stored(e), chatId, ids, clock)
      == Records(texts, chatId, ids, clock) + StoredRecord(e, chatId, ids(|texts|), clock(|texts|))
  {
  }

  /** What one more relayed event adds to the store, on top of what the texts stored so far
      added. */
  lemma StoreStep(m0: map<string, seq<ChatStore.ChatMessage>>, c0: map<string, ChatStore.Chat>, chatId: string,
                  stored: seq<string>, e: Agent.OutputEvent, ids: nat -> string, clock: nat -> string)
    ensures var added := StoredRecord(e, chatId, ids(|stored|), clock(|stored|));
      MessagesAfter(MessagesAfter(m0, chatId, Records(stored, chatId, ids, clock)), chatId, added)
        == MessagesAfter(m0, chatId, Records(stored + Stored(e), chatId, ids, clock))
    ensures var added := StoredRecord(e, chatId, ids(|stored|), clock(|stored|));
      ChatsTouched(ChatsTouched(c0, chatId, Records(stored, chatId, ids, clock)), chatId, added)
        == ChatsTouched(c0, chatId, Records(stored + Stored(e), chatId, ids, clock))
  {
    var added := StoredRecord(e, chatId, ids(|stored|), clock(|stored|));
    RecordsStep(stored, e, chatId, ids, clock);
    MessagesAfterTwice(m0, chatId, Records(stored, chatId, ids, clock), added);
    ChatsTouchedTwice(c0, chatId, Records(stored, chatId, ids, clock), added);
  }

  /** Storing nothing changes nothing. */
  lemma NothingAdded(m: map<string, seq<ChatStore.ChatMessage>>, c: map<string, ChatStore.Chat>, chatId: string)
    ensures MessagesAfter(m, chatId, []) == m
    ensures ChatsTouched(c, chatId, []) == c
  {
    if chatId in m {
      assert m[chatId] + [] == m[chatId];
    }
  }

  // ---------------------------------------------------------------------------------------
  // Properties of the relayed stream

  lemma {:induction false} FanoutAppend(a: seq<Agent.OutputEvent>, b: seq<Agent.OutputEvent>, chatId: string)
    ensures Fanout(a + b, chatId) == Fanout(a, chatId) + Fanout(b, chatId)
  {
    if a == [] {
      assert a + b == b;
    } else {
      assert (a + b)[1..] == a[1..] + b;
      FanoutAppend(a[1..], b, chatId);
    }
  }

  /** Every tool-use event in `ps` comes right after the status that names its tool. */
  predicate ToolUsesAnnounced(ps: seq<Payload>, chatId: string)
  {
    forall i | 0 <= i < |ps| && ps[i].Event? && ps[i].event.ToolUse? ::
      i > 0 && ps[i - 1] == AgentStatus(AgentStatusMessage(ps[i].event.toolName), chatId)
  }

  /** Every status in `ps` comes right before the tool-use event whose tool it names. */
  predicate StatusesAnnounce(ps: seq<Payload>)
  {
    forall i | 0 <= i < |ps| && ps[i].AgentStatus? ::
      i + 1 < |ps| && ps[i + 1].Event? && ps[i + 1].event.ToolUse?
      && ps[i].message == AgentStatusMessage(ps[i + 1].event.toolName)
  }

  /** Every tool use is broadcast right after a status naming it. */
  lemma {:induction false} ToolUseAnnounced(es: seq<Agent.OutputEvent>, chatId: string)
    ensures ToolUsesAnnounced(Fanout(es, chatId), chatId)
  {
    if es != [] {
      ToolUseAnnounced(es[1..], chatId);
      var head := EventPayloads(es[0], chatId);
      var tail := Fanout(es[1..], chatId);
      var ps := head + tail;
      forall i | 0 <= i < |ps| && ps[i].Event? && ps[i].event.ToolUse?
        ensures i > 0 && ps[i - 1] == AgentStatus(AgentStatusMessage(ps[i].event.toolName), chatId)
      {
        if i >= |head| {
          assert ps[i] == tail[i - |head|];
          assert i - |head| > 0;
          assert ps[i - 1] == tail[i - 1 - |head|];
        }
      }
    }
  }

  /** Every status is broadcast right before the tool use it names. */
  lemma {:induction false} StatusAnnounces(es: seq<Agent.OutputEvent>, chatId: string)
    ensures StatusesAnnounce(Fanout(es, chatId))
  {
    if es != [] {
      StatusAnnounces(es[1..], chatId);
      var head := EventPayloads(es[0], chatId);
      var tail := Fanout(es[1..], chatId);
      var ps := head + tail;
      forall i | 0 <= i < |ps| && ps[i].AgentStatus?
        ensures i + 1 < |ps| && ps[i + 1].Event? && ps[i + 1].event.ToolUse?
          && ps[i].message == AgentStatusMessage(ps[i + 1].event.toolName)
      {
        if i >= |head| {
          assert ps[i] == tail[i - |head|];
          assert ps[i + 1] == tail[i + 1 - |head|];
        }
      }
    }
  }

  /** Every payload of the relayed stream carries the session's chat id. */
  lemma {:induction false} FanoutStamped(es: seq<Agent.OutputEvent>, chatId: string)
    ensures forall p | p in Fanout(es, chatId) :: p.chatId == chatId
  {
    if es != [] {
      FanoutStamped(es[1..], chatId);
    }
  }

  /** Leaving out the statuses gives back the driver's events unchanged and in order. */
  lemma {:induction false} FanoutEvents(es: seq<Agent.OutputEvent>, chatId: string)
    ensures Events(Fanout(es, chatId)) == es
  {
    if es != [] {
      FanoutEvents(es[1..], chatId);
      EventsAppend(EventPayloads(es[0], chatId), Fanout(es[1..], chatId));
      if es[0].ToolUse? {
        assert EventPayloads(es[0], chatId)[1..] == [Event(es[0], chatId)];
      }
    }
  }

  lemma {:induction false} EventsAppend(a: seq<Payload>, b: seq<Payload>)
    ensures Events(a + b) == Events(a) + Events(b)
  {
    if a == [] {
      assert a + b == b;
    } else {
      var head := if a[0].Event? then [a[0].event] else [];
      assert (a + b)[0] == a[0];
      assert (a + b)[1..] == a[1..] + b;
      EventsAppend(a[1..], b);
      assert head + (Events(a[1..]) + Events(b)) == head + Events(a[1..]) + Events(b);
    }
  }

  /** For a chat the store knows, a listener slice relays every event up to the sentinel (or
      to the end of the queue), stores every assistant text among them, and ends exactly when
      it met the sentinel. */
  lemma {:induction false} DrainKnown(q: seq<Option<Agent.OutputEvent>>, chatId: string)
    ensures Drain(q, true, chatId) == DrainResult(
      Fanout(Agent.TakeUntilNone(q), chatId),
      AssistantTexts(Agent.TakeUntilNone(q)),
      Agent.DropThroughNone(q),
      if None in q then Finished else Suspended)
  {
    if q != [] {
      DrainKnown(q[1..], chatId);
      if q[0].Some? {
        var e := q[0].value;
        assert Agent.TakeUntilNone(q) == [e] + Agent.TakeUntilNone(q[1..]);
        assert [e][1..] + Agent.TakeUntilNone(q[1..]) == Agent.TakeUntilNone(q[1..]);
        assert (None in q) == (None in q[1..]) by {
          assert q == [q[0]] + q[1..];
        }
      }
    }
  }

  /** For a chat the store does not know, nothing is stored, and a slice that meets an
      assistant message ends with the store's error as its last broadcast. */
  lemma {:induction false} DrainUnknown(q: seq<Option<Agent.OutputEvent>>, chatId: string)
    ensures Drain(q, false, chatId).stored == []
    ensures var d := Drain(q, false, chatId);
      (exists e | e in Agent.TakeUntilNone(q) :: e.AssistantMessage?) ==>
        d.outcome == Finished && d.sent != [] && d.sent[|d.sent| - 1] == StoreError(chatId)
  {
    if q != [] && q[0].Some? && !q[0].value.AssistantMessage? {
      DrainUnknown(q[1..], chatId);
      assert Stored(q[0].value) == [];
    }
    if exists e | e in Agent.TakeUntilNone(q) :: e.AssistantMessage? {
      DrainUnknownSent(q, chatId);
    }
  }

  /** The events before the first assistant message. */
  function UntilAssistant(es: seq<Agent.OutputEvent>): (r: seq<Agent.OutputEvent>)
    ensures |r| <= |es|
  {
    if es == [] || es[0].AssistantMessage? then [] else [es[0]] + UntilAssistant(es[1..])
  }

  /** What a slice broadcasts for a chat the store does not know once it meets an assistant
      message: the events before it are relayed as for a known chat, then the store's error
      ends the listener. */
  lemma {:induction false} DrainUnknownSent(q: seq<Option<Agent.OutputEvent>>, chatId: string)
    requires exists e | e in Agent.TakeUntilNone(q) :: e.AssistantMessage?
    ensures var d := Drain(q, false, chatId);
      d.sent == Fanout(UntilAssistant(Agent.TakeUntilNone(q)), chatId) + [StoreError(chatId)] && d.outcome == Finished
  {
    var e, es, es' := q[0].value, Agent.TakeUntilNone(q), Agent.TakeUntilNone(q[1..]);
    assert es == [e] + es';
    if !e.AssistantMessage? {
      assert exists x | x in es' :: x.AssistantMessage? by {
        var x :| x in es && x.AssistantMessage?;
        assert x in es';
      }
      DrainUnknownSent(q[1..], chatId);
      assert Stored(e) == [];
      assert UntilAssistant(es) == [e] + UntilAssistant(es');
      FanoutCons(e, UntilAssistant(es'), chatId);
    }
  }

  lemma FanoutCons(e: Agent.OutputEvent, es: seq<Agent.OutputEvent>, chatId: string)
    ensures Fanout([e] + es, chatId) == EventPayloads(e, chatId) + Fanout(es, chatId)
  {
    assert ([e] + es)[1..] == es;
  }

  /** A slice that meets no assistant message does the same whether or not the store knows
      the chat. */
  lemma {:induction false} DrainUnknownLikeKnown(q: seq<Option<Agent.OutputEvent>>, chatId: string)
    requires !exists e | e in Agent.TakeUntilNone(q) :: e.AssistantMessage?
    ensures Drain(q, false, chatId) == Drain(q, true, chatId)
  {
    if q != [] && q[0].Some? {
      var e, es, es' := q[0].value, Agent.TakeUntilNone(q), Agent.TakeUntilNone(q[1..]);
      assert es == [e] + es';
      assert e in es;
      assert !exists x | x in es' :: x.AssistantMessage? by {
        forall x | x in es'
          ensures x in es
        {
        }
      }
      DrainUnknownLikeKnown(q[1..], chatId);
    }
  }

  /** A whole run seen by the listener of a known chat: everything the driver emitted is
      relayed in order, with each tool use announced, every assistant text is stored, and the
      listener ends on the sentinel with nothing left in the queue. */
  lemma RelayWholeRun(msgs: seq<Sdk.Message>, ending: Agent.Ending, closed: bool, chatId: string)
    ensures var d := Drain(Agent.Somes(Agent.RunEvents(msgs, ending, closed)) + [None], true, chatId);
      && d.sent == Fanout(Agent.RunEvents(msgs, ending, closed), chatId)
      && Events(d.sent) == Agent.RunEvents(msgs, ending, closed)
      && d.stored == AssistantTexts(Agent.RunEvents(msgs, ending, closed))
      && d.rest == [] && d.outcome == Finished
  {
    var es := Agent.RunEvents(msgs, ending, closed);
    var q := Agent.Somes(es) + [None];
    Agent.RunIsReadThenEnds(msgs, ending, closed);
    DrainKnown(q, chatId);
    FanoutEvents(es, chatId);
    assert q[|q| - 1] == None;
  }

  /** One turn of the listener, as a relation between what it found and what it did: `q` is
      the queue it read and `q2` the queue it left, `out` what it broadcast, `texts` what it
      stored, and `m`, `c` to `m2`, `c2` the store's maps before and after. When it waits
      or ends (`ended`), it stored nothing and the turn is all of `Drain`; otherwise it took
      one event, which `Drain` relays before reading on. */
  ghost predicate Stepped(q: seq<Option<Agent.OutputEvent>>, known: bool, chatId: string,
                          out: seq<Payload>, texts: seq<string>, ended: Option<ListenState>, q2: seq<Option<Agent.OutputEvent>>,
                          m: map<string, seq<ChatStore.ChatMessage>>, c: map<string, ChatStore.Chat>,
                          m2: map<string, seq<ChatStore.ChatMessage>>, c2: map<string, ChatStore.Chat>, msgId: string, now: string)
  {
    && q2 == (if q == [] then [] else q[1..])
    && (ended.Some? ==>
      && texts == [] && m2 == m && c2 == c
      && Drain(q, known, chatId) == DrainResult(out, [], q2, ended.value))
    && (ended.None? ==>
      && q != [] && q[0].Some? && texts == Stored(q[0].value)
      && Drain(q, known, chatId) == Prefixed(out, texts, Drain(q[1..], known, chatId))
      && m2 == MessagesAfter(m, chatId, StoredRecord(q[0].value, chatId, msgId, now))
      && c2 == ChatsTouched(c, chatId, StoredRecord(q[0].value, chatId, msgId, now)))
  }

  /** A listener slice part-way: it has sent `sent` and stored `stored`, the queue still
      holds `q`, and the store's maps went from `m0`, `c0` to `m`, `c`. */
  ghost predicate Relayed(d: DrainResult, sent: seq<Payload>, stored: seq<string>, q: seq<Option<Agent.OutputEvent>>,
                          known: bool, chatId: string, m0: map<string, seq<ChatStore.ChatMessage>>, c0: map<string, ChatStore.Chat>,
                          m: map<string, seq<ChatStore.ChatMessage>>, c: map<string, ChatStore.Chat>, ids: nat -> string, clock: nat -> string)
  {
    && d == Prefixed(sent, stored, Drain(q, known, chatId))
    && m == MessagesAfter(m0, chatId, Records(stored, chatId, ids, clock))
    && c == ChatsTouched(c0, chatId, Records(stored, chatId, ids, clock))
  }

  /** What the broadcasts of a slice that sent `sent` leave behind: the broken sockets are
      gone once anything was sent, and the log has grown by `sent`. */
  ghost predicate Sent(subs0: set<Handle>, log0: seq<Payload>, broken: set<Handle>, sent: seq<Payload>,
                       subs: set<Handle>, log: seq<Payload>)
  {
    && subs == (if sent == [] then subs0 else subs0 - broken)
    && log == log0 + sent
  }

  /** One more turn's broadcasts keep `Sent`. */
  lemma Told(subs0: set<Handle>, log0: seq<Payload>, broken: set<Handle>, sent: seq<Payload>,
             subs: set<Handle>, log: seq<Payload>, out: seq<Payload>, subs2: set<Handle>, log2: seq<Payload>)
    requires Sent(subs0, log0, broken, sent, subs, log)
    requires subs2 == (if out == [] then subs else subs - broken) && log2 == log + out
    ensures Sent(subs0, log0, broken, sent + out, subs2, log2)
  {
    assert log0 + sent + out == log0 + (sent + out);
  }

  /** One turn of the listener, as `RelayNext` performs it, keeps `Relayed`, or completes the
      slice when the listener waits or ends. */
  lemma Advance(d: DrainResult, sent: seq<Payload>, stored: seq<string>, q: seq<Option<Agent.OutputEvent>>,
                known: bool, chatId: string, m0: map<string, seq<ChatStore.ChatMessage>>, c0: map<string, ChatStore.Chat>,
                m: map<string, seq<ChatStore.ChatMessage>>, c: map<string, ChatStore.Chat>, ids: nat -> string, clock: nat -> string,
                out: seq<Payload>, texts: seq<string>, ended: Option<ListenState>, q2: seq<Option<Agent.OutputEvent>>,
                m2: map<string, seq<ChatStore.ChatMessage>>, c2: map<string, ChatStore.Chat>)
    requires Relayed(d, sent, stored, q, known, chatId, m0, c0, m, c, ids, clock)
    requires Stepped(q, known, chatId, out, texts, ended, q2, m, c, m2, c2, ids(|stored|), clock(|stored|))
    ensures ended.None? ==> Relayed(d, sent + out, stored + texts, q2, known, chatId, m0, c0, m2, c2, ids, clock)
    ensures ended.Some? ==>
      && d == DrainResult(sent + out, stored, q2, ended.value)
      && m2 == MessagesAfter(m0, chatId, Records(stored, chatId, ids, clock))
      && c2 == ChatsTouched(c0, chatId, Records(stored, chatId, ids, clock))
  {
    if ended.Some? {
      assert stored + [] == stored;
    } else {
      PrefixedTwice(sent, stored, out, texts, Drain(q[1..], known, chatId));
      StoreStep(m0, c0, chatId, stored, q[0].value, ids, clock);
    }
  }

  lemma PrefixedTwice(sent: seq<Payload>, stored: seq<string>, out: seq<Payload>, texts: seq<string>, d: DrainResult)
    ensures Prefixed(sent, stored, Prefixed(out, texts, d)) == Prefixed(sent + out, stored + texts, d)
  {
    assert sent + (out + d.sent) == sent + out + d.sent;
    assert stored + (texts + d.stored) == stored + texts + d.stored;
  }

  // ---------------------------------------------------------------------------------------
  // The session object

  class Session {
    const chatId: string
    const store: ChatStore.ChatStore
    const agent: Agent.AgentSession
    var subscribers: set<Handle>
    var listening: ListenState
    var isListening: bool
    /** How many listener tasks the session has created: never more than one. */
    ghost var listenStarts: nat
    /** Every payload `_broadcast` has been asked to send, in order. */
    ghost var log: seq<Payload>

    ghost predicate Valid()
      reads this, agent
    {
      && agent.Valid()
      && listenStarts <= 1
      && (listening.NotCreated? ==> listenStarts == 0 && !isListening)
      && (listening.Suspended? ==> isListening)
      && (isListening ==> !agent.task.NoTask?)
    }

    constructor (chatId: string, store: ChatStore.ChatStore)
      ensures Valid() && fresh(agent)
      ensures this.chatId == chatId && this.store == store
      ensures subscribers == {} && listening == NotCreated && !isListening && log == []
      ensures agent.inputQueue == [] && agent.outputQueue == [] && agent.task.NoTask? && !agent.closed
    {
      this.chatId := chatId;
      this.store := store;
      agent := new Agent.AgentSession();
      subscribers := {};
      listening := NotCreated;
      isListening := false;
      listenStarts := 0;
      log := [];
    }

    method Subscribe(h: Handle)
      modifies this`subscribers
      ensures subscribers == old(subscribers) + {h}
    {
      subscribers := subscribers + {h};
    }

    method Unsubscribe(h: Handle)
      modifies this`subscribers
      ensures subscribers == old(subscribers) - {h}
    {
      subscribers := subscribers - {h};
    }

    /** `_broadcast`: tries every current subscriber in turn, collects those whose send fails
        and then removes exactly those. */
    method Broadcast(payload: Payload, broken: set<Handle>) returns (attempted: set<Handle>, dead: seq<Handle>)
      modifies this`subscribers, this`log
      ensures log == old(log) + [payload]
      ensures attempted == old(subscribers)
      ensures forall h :: h in dead <==> h in old(subscribers) && h in broken
      ensures subscribers == old(subscribers) - broken
    {
      var pending := subscribers;
      attempted := {};
      dead := [];
      while pending != {}
        invariant subscribers == old(subscribers) && log == old(log)
        invariant pending + attempted == subscribers && pending !! attempted
        invariant forall h :: h in dead <==> h in attempted && h in broken
        decreases |pending|
      {
        var ws :| ws in pending;
        attempted := attempted + {ws};
        if ws in broken {
          dead := dead + [ws];
        }
        pending := pending - {ws};
      }
      var i := 0;
      while i < |dead|
        invariant 0 <= i <= |dead|
        invariant forall h :: h in subscribers <==> h in old(subscribers) && h !in dead[..i]
        invariant log == old(log)
      {
        assert dead[..i + 1] == dead[..i] + [dead[i]];
        subscribers := subscribers - {dead[i]};
        i := i + 1;
      }
      assert dead[..i] == dead;
      log := log + [payload];
    }

    /** One driver event relayed: a tool use is announced by its status, an assistant message
        is stored (the store rejects it when the chat is unknown, and the error is broadcast
        instead), then the event is broadcast with the chat id. */
    method HandleEvent(e: Agent.OutputEvent, broken: set<Handle>, msgId: string, now: string)
      returns (out: seq<Payload>, failed: bool)
      requires Valid() && store.Valid()
      modifies this`subscribers, this`log, store
      ensures Valid() && store.Valid()
      ensures log == old(log) + out
      ensures failed <==> e.AssistantMessage? && chatId !in old(store.messages)
      ensures failed ==> out == [StoreError(chatId)]
      ensures !failed ==> out == EventPayloads(e, chatId)
      ensures subscribers == old(subscribers) - broken
      ensures store.messages == MessagesAfter(old(store.messages), chatId, StoredRecord(e, chatId, msgId, now))
      ensures store.chats == ChatsTouched(old(store.chats), chatId, StoredRecord(e, chatId, msgId, now))
    {
      out := [];
      failed := false;
      if e.ToolUse? {
        var status := AgentStatus(AgentStatusMessage(e.toolName), chatId);
        var _, _ := Broadcast(status, broken);
        out := [status];
      }
      if e.AssistantMessage? {
        var r := store.AddMessage(chatId, "assistant", e.content, msgId, now);
        if r.Err? {
          var err := Event(Agent.Error(r.error), chatId);
          var _, _ := Broadcast(err, broken);
          return [err], true;
        }
        ChatStore.AssistantKeepsTitle(old(store.chats)[chatId].title, e.content);
      }
      if !e.AssistantMessage? {
        NothingAdded(store.messages, store.chats, chatId);
      }
      var wrapped := Event(e, chatId);
      var _, _ := Broadcast(wrapped, broken);
      out := out + [wrapped];
    }

    /** One scheduler slice of the `_listen` task. On its first run it marks the session as
        listening (or returns at once if it already was) and starts the driver; then it relays
        what the driver's output queue holds as `Drain` describes. */
    method ListenStep(broken: set<Handle>, ids: nat -> string, clock: nat -> string) returns (sent: seq<Payload>)
      requires Valid() && store.Valid()
      requires listening.Created? || listening.Suspended?
      modifies this, agent, store
      ensures Valid() && store.Valid()
      ensures listenStarts == old(listenStarts) && log == old(log) + sent
      ensures agent.inputQueue == old(agent.inputQueue) && agent.closed == old(agent.closed)
      ensures subscribers == if sent == [] then old(subscribers) else old(subscribers) - broken
      ensures old(listening).Created? && old(isListening) ==>
        && sent == [] && listening == Finished && isListening
        && agent.outputQueue == old(agent.outputQueue) && agent.task == old(agent.task)
        && store.messages == old(store.messages) && store.chats == old(store.chats)
      ensures !(old(listening).Created? && old(isListening)) ==>
        var d := Drain(old(agent.outputQueue), chatId in old(store.messages), chatId);
        && sent == d.sent && listening == d.outcome && isListening
        && agent.outputQueue == d.rest
        && agent.task == (if old(agent.task).NoTask? then Agent.Pending else old(agent.task))
        && store.messages == MessagesAfter(old(store.messages), chatId, Records(d.stored, chatId, ids, clock))
        && store.chats == ChatsTouched(old(store.chats), chatId, Records(d.stored, chatId, ids, clock))
    {
      if listening.Created? {
        if isListening {
          listening := Finished;
          return [];
        }
        isListening := true;
        agent.Start();
      }
      sent := Relay(broken, ids, clock);
    }

    /** One turn of the `async for` of `_listen`: takes the next item of the driver's output
        queue, if any, and handles it. `ended` says whether the listener waits (the queue is
        empty) or ends (the sentinel, or an assistant message the store rejects); `texts` are
        the assistant texts it stored. Each case is one step of `Drain`. */
    method RelayNext(broken: set<Handle>, msgId: string, now: string)
      returns (out: seq<Payload>, texts: seq<string>, ended: Option<ListenState>)
      requires Valid() && store.Valid()
      modifies this`subscribers, this`log, agent`outputQueue, store
      ensures Valid() && store.Valid()
      ensures log == old(log) + out
      ensures subscribers == if out == [] then old(subscribers) else old(subscribers) - broken
      ensures Stepped(old(agent.outputQueue), chatId in old(store.messages), chatId, out, texts, ended, agent.outputQueue,
                      old(store.messages), old(store.chats), store.messages, store.chats, msgId, now)
    {
      var p := agent.PullOutput();
      match p {
        case WouldBlock =>
          return [], [], Some(Suspended);
        case EndOfStream =>
          return [], [], Some(Finished);
        case Item(e) =>
          var failed;
          out, failed := HandleEvent(e, broken, msgId, now);
          if failed {
            return out, [], Some(Finished);
          }
          texts, ended := Stored(e), None;
      }
    }

    /** The `async for` of `_listen` over the driver's output stream. */
    method Relay(broken: set<Handle>, ids: nat -> string, clock: nat -> string) returns (sent: seq<Payload>)
      requires Valid() && store.Valid() && isListening
      modifies this`subscribers, this`listening, this`log, agent`outputQueue, store
      ensures Valid() && store.Valid()
      ensures log == old(log) + sent
      ensures subscribers == if sent == [] then old(subscribers) else old(subscribers) - broken
      ensures var d := Drain(old(agent.outputQueue), chatId in old(store.messages), chatId);
        && sent == d.sent && listening == d.outcome
        && agent.outputQueue == d.rest
        && store.messages == MessagesAfter(old(store.messages), chatId, Records(d.stored, chatId, ids, clock))
        && store.chats == ChatsTouched(old(store.chats), chatId, Records(d.stored, chatId, ids, clock))
    {
      ghost var m0, c0 := store.messages, store.chats;
      ghost var known := chatId in store.messages;
      ghost var d := Drain(agent.outputQueue, known, chatId);
      var stored: seq<string> := [];
      sent := [];
      NothingAdded(m0, c0, chatId);
      while true
        invariant Valid() && store.Valid()
        invariant (chatId in store.messages) == known
        invariant Sent(old(subscribers), old(log), broken, sent, subscribers, log)
        invariant Relayed(d, sent, stored, agent.outputQueue, known, chatId, m0, c0, store.messages, store.chats, ids, clock)
        decreases |agent.outputQueue|
      {
        ghost var q, m, c := agent.outputQueue, store.messages, store.chats;
        ghost var q0s, q0l := subscribers, log;
        var out, texts, ended := RelayNext(broken, ids(|stored|), clock(|stored|));
        Advance(d, sent, stored, q, known, chatId, m0, c0, m, c, ids, clock,
                out, texts, ended, agent.outputQueue, store.messages, store.chats);
        Told(old(subscribers), old(log), broken, sent, q0s, q0l, out, subscribers, log);
        sent := sent + out;
        if ended.Some? {
          listening := ended.value;
          return;
        }
        stored := stored + texts;
      }
    }

    /** `send_message`: stores the user's message (an unknown chat is an error and nothing
        else happens), broadcasts it, queues it for the driver and creates the listener
        unless one was created before. */
    method SendMessage(content: string, msgId: string, now: string, broken: set<Handle>)
      returns (r: Result<ChatStore.ChatMessage>, sent: seq<Payload>)
      requires Valid() && store.Valid()
      modifies this, agent, store
      ensures Valid() && store.Valid()
      ensures sent == (if chatId in old(store.messages) then [UserMessage(content, chatId)] else [])
      ensures log == old(log) + sent
      ensures chatId !in old(store.messages) ==>
        && r == Err("Chat " + chatId + " not found")
        && store.messages == old(store.messages) && store.chats == old(store.chats)
        && subscribers == old(subscribers) && listening == old(listening)
        && agent.inputQueue == old(agent.inputQueue) && agent.task == old(agent.task)
      ensures chatId in old(store.messages) ==>
        && r == Ok(ChatStore.ChatMessage(msgId, chatId, "user", content, now))
        && store.messages == old(store.messages)[chatId := old(store.messages)[chatId] + [r.value]]
        && store.chats == old(store.chats)[chatId := ChatStore.Touched(old(store.chats)[chatId], "user", content, now)]
        && subscribers == old(subscribers) - broken
        && agent.inputQueue == old(agent.inputQueue) + [Some(content)]
        && agent.task == (if old(agent.task).NoTask? then Agent.Pending else old(agent.task))
        && listening == (if old(listening).NotCreated? && !old(isListening) then Created else old(listening))
      ensures isListening == old(isListening) && agent.outputQueue == old(agent.outputQueue)
      ensures agent.closed == old(agent.closed)
    {
      sent := [];
      r := store.AddMessage(chatId, "user", content, msgId, now);
      if r.Err? {
        return;
      }
      var _, _ := Broadcast(UserMessage(content, chatId), broken);
      sent := [UserMessage(content, chatId)];
      agent.SendMessage(content);
      if !isListening && listening.NotCreated? {
        listening := Created;
        listenStarts := listenStarts + 1;
      }
    }

    /** `close`: closes the driver and cancels the listener if it has not finished; a
        listener cancelled before its first run never runs. */
    method Close()
      requires Valid()
      modifies this`listening, agent`closed, agent`inputQueue, agent`task
      ensures Valid()
      ensures agent.closed && agent.inputQueue == old(agent.inputQueue) + [None]
      ensures agent.task == if old(agent.task) == Agent.Pending then Agent.Done else old(agent.task)
      ensures listening == if old(listening).Created? || old(listening).Suspended? then Finished else old(listening)
    {
      agent.Close();
      if listening.Created? || listening.Suspended? {
        listening := Finished;
      }
    }
  }

  // ---------------------------------------------------------------------------------------
  // The process-wide registry of sessions

  class Registry {
    const store: ChatStore.ChatStore
    var sessions: map<string, Session>

    /** Every session sits under its own chat id, uses the registry's store and is itself
        consistent, and no two sessions share a driver. */
    ghost predicate Valid()
      reads this, sessions.Values, set k | k in sessions :: sessions[k].agent
    {
      && (forall k | k in sessions :: sessions[k].chatId == k && sessions[k].store == store && sessions[k].Valid())
      && (forall k, k' | k in sessions && k' in sessions && k != k' :: sessions[k].agent != sessions[k'].agent)
    }

    constructor (store: ChatStore.ChatStore)
      ensures Valid() && this.store == store && sessions == map[]
    {
      this.store := store;
      sessions := map[];
    }

    /** `get_session`: the first lookup of an id creates its session; later lookups return
        that same session. */
    method GetSession(chatId: string) returns (s: Session)
      requires Valid()
      modifies this
      ensures Valid()
      ensures s.chatId == chatId && s.store == store && s.Valid()
      ensures chatId in old(sessions) ==> s == old(sessions)[chatId] && sessions == old(sessions)
      ensures chatId !in old(sessions) ==>
        && fresh(s) && fresh(s.agent) && s.Valid()
        && s.subscribers == {} && s.listening == NotCreated && !s.isListening && s.log == []
        && s.agent.inputQueue == [] && s.agent.outputQueue == [] && s.agent.task.NoTask? && !s.agent.closed
        && sessions == old(sessions)[chatId := s]
    {
      if chatId !in sessions {
        var created := new Session(chatId, store);
        sessions := sessions[chatId := created];
      }
      s := sessions[chatId];
    }

    /** The registry part of deleting a chat: only when the store had the chat is its
        session (if any) closed and removed. */
    method DeleteChat(chatId: string) returns (found: bool)
      requires Valid() && store.Valid()
      modifies this, store, if chatId in sessions then {sessions[chatId], sessions[chatId].agent} else {}
      ensures Valid() && store.Valid()
      ensures found <==> chatId in old(store.chats)
      ensures store.chats == old(store.chats) - {chatId} && store.messages == old(store.messages) - {chatId}
      ensures !found ==> sessions == old(sessions)
      ensures !found && chatId in old(sessions) ==> unchanged(old(sessions)[chatId], old(sessions)[chatId].agent)
      ensures found ==> sessions == old(sessions) - {chatId}
      ensures found && chatId in old(sessions) ==>
        var s := old(sessions)[chatId];
        && s.agent.closed && s.agent.inputQueue == old(s.agent.inputQueue) + [None]
        && s.agent.task == (if old(s.agent.task) == Agent.Pending then Agent.Done else old(s.agent.task))
        && s.agent.outputQueue == old(s.agent.outputQueue)
        && s.listening == (if old(s.listening).Created? || old(s.listening).Suspended? then Finished else old(s.listening))
        && s.subscribers == old(s.subscribers) && s.isListening == old(s.isListening) && s.log == old(s.log)
    {
      found := store.DeleteChat(chatId);
      if !found {
        return;
      }
      if chatId in sessions {
        var s := sessions[chatId];
        s.Close();
        sessions := sessions - {chatId};
      }
    }

    /** A socket that disconnects is unsubscribed from every session. */
    method Disconnect(h: Handle)
      requires Valid()
      modifies sessions.Values`subscribers
      ensures Valid() && sessions == old(sessions)
      ensures forall k | k in sessions :: sessions[k].subscribers == old(sessions[k].subscribers) - {h}
    {
      var todo := sessions.Values;
      while todo != {}
        invariant todo <= sessions.Values
        invariant forall s | s in sessions.Values ::
          s.subscribers == if s in todo then old(s.subscribers) else old(s.subscribers) - {h}
        decreases |todo|
      {
        var s :| s in todo;
        s.Unsubscribe(h);
        todo := todo - {s};
      }
    }
  }
}
