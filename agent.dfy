/** The agent driver of agent.py: one long-lived SDK query per chat, fed from an input queue
    and emitting classified events into an output queue. Queues hold `Option` values with
    `None` as the end-of-stream sentinel, as the source's `asyncio.Queue`s do. */
module Agent {
  import opened Wrappers
  import Sdk

  /** The events the driver emits (the dictionaries put on the output queue). */
  datatype OutputEvent =
    | AssistantMessage(content: string)
    | ToolUse(toolName: string, toolId: string, toolInput: Sdk.Json)
    | Result(success: bool, cost: Option<real>, durationMs: int)
    | Error(error: string)

  /** How the SDK's stream ended: it ran out, it was cancelled, or it raised. */
  datatype Ending = Completed | Cancelled | Raised(message: string)

  /** The state of an asyncio task slot: none created, created and not yet finished, finished. */
  datatype TaskState = NoTask | Pending | Done

  /** One prompt the driver hands to the SDK (the "user" turn dictionary). */
  datatype UserTurn = UserTurn(role: string, content: string, parentToolUseId: Option<string>, sessionId: string)

  /** The outcome of one `await queue.get()` on the output queue: an event, the sentinel, or
      nothing yet (the reader would suspend). */
  datatype Pull = Item(event: OutputEvent) | EndOfStream | WouldBlock

  function UserTurnFor(content: string): UserTurn
  {
    UserTurn("user", content, None, "")
  }

  function UserTurns(contents: seq<string>): (turns: seq<UserTurn>)
    ensures |turns| == |contents|
    ensures forall i | 0 <= i < |contents| :: turns[i].role == "user" && turns[i].content == contents[i]
  {
    seq(|contents|, i requires 0 <= i < |contents| => UserTurnFor(contents[i]))
  }

  // ---------------------------------------------------------------------------------------
  // Classification of SDK messages

  /** The event for one content block: text and tool use are kept, anything else dropped. */
  function BlockEvent(b: Sdk.ContentBlock): (es: seq<OutputEvent>)
    ensures b.TextBlock? ==> es == [AssistantMessage(b.text)]
    ensures b.ToolUseBlock? ==> es == [ToolUse(b.name, b.id, b.input)]
    ensures b.OtherBlock? ==> es == []
  {
    match b
    case TextBlock(text) => [AssistantMessage(text)]
    case ToolUseBlock(id, name, input) => [ToolUse(name, id, input)]
    case OtherBlock => []
  }

  /** The events for a block list, in block order: each block gives at most one event. */
  function BlockEvents(blocks: seq<Sdk.ContentBlock>): (es: seq<OutputEvent>)
    ensures |es| <= |blocks|
  {
    if blocks == [] then [] else BlockEvent(blocks[0]) + BlockEvents(blocks[1..])
  }

  /** The result event for a result message: a missing `is_error` counts as failure, a
      missing duration as 0, and the cost is passed through (None when absent). */
  function ResultEvent(isError: Option<bool>, cost: Option<real>, durationMs: Option<int>): (e: OutputEvent)
    ensures e.Result?
    ensures e.success <==> isError == Some(false)
    ensures e.cost == cost
    ensures durationMs.None? ==> e.durationMs == 0
    ensures durationMs.Some? ==> e.durationMs == durationMs.value
  {
    Result(!isError.GetOr(true), cost, durationMs.GetOr(0))
  }

  /** The events for one SDK message: a result message gives exactly its result event, an
      assistant message at most one event per block, and any other message none. */
  function Classify(m: Sdk.Message): (es: seq<OutputEvent>)
    ensures m.ResultMessage? ==> |es| == 1 && es[0].Result?
    ensures m.AssistantMessage? ==> |es| <= |m.content|
  {
    match m
    case AssistantMessage(blocks) => BlockEvents(blocks)
    case ResultMessage(isError, cost, durationMs) => [ResultEvent(isError, cost, durationMs)]
    case OtherMessage => []
  }

  /** The events for a message stream, in stream order. */
  function Classified(msgs: seq<Sdk.Message>): seq<OutputEvent>
  {
    if msgs == [] then [] else Classify(msgs[0]) + Classified(msgs[1..])
  }

  /** Everything the run loop emits before its sentinel. A session that is already closed
      breaks out before classifying anything and suppresses a raised error; otherwise every
      message is classified, and an exception adds one error event at the end. */
  function RunEvents(msgs: seq<Sdk.Message>, ending: Ending, closed: bool): (es: seq<OutputEvent>)
    ensures closed ==> es == []
  {
    if closed then []
    else Classified(msgs) + (if ending.Raised? then [Error(ending.message)] else [])
  }

  function ErrorCount(es: seq<OutputEvent>): nat
  {
    if es == [] then 0 else (if es[0].Error? then 1 else 0) + ErrorCount(es[1..])
  }

  /** Classifying blocks maps concatenation to concatenation: block order is kept. */
  lemma {:induction false} BlockEventsAppend(a: seq<Sdk.ContentBlock>, b: seq<Sdk.ContentBlock>)
    ensures BlockEvents(a + b) == BlockEvents(a) + BlockEvents(b)
  {
    if a != [] {
      assert (a + b)[1..] == a[1..] + b;
      BlockEventsAppend(a[1..], b);
    } else {
      assert a + b == b;
    }
  }

  /** Classifying messages maps concatenation to concatenation: message order is kept. */
  lemma {:induction false} ClassifiedAppend(a: seq<Sdk.Message>, b: seq<Sdk.Message>)
    ensures Classified(a + b) == Classified(a) + Classified(b)
  {
    if a != [] {
      assert (a + b)[1..] == a[1..] + b;
      ClassifiedAppend(a[1..], b);
    } else {
      assert a + b == b;
    }
  }

  lemma {:induction false} ErrorCountAppend(a: seq<OutputEvent>, b: seq<OutputEvent>)
    ensures ErrorCount(a + b) == ErrorCount(a) + ErrorCount(b)
  {
    if a != [] {
      assert (a + b)[1..] == a[1..] + b;
      ErrorCountAppend(a[1..], b);
    } else {
      assert a + b == b;
    }
  }

  lemma {:induction false} BlockEventsHaveNoError(blocks: seq<Sdk.ContentBlock>)
    ensures ErrorCount(BlockEvents(blocks)) == 0
  {
    if blocks != [] {
      BlockEventsHaveNoError(blocks[1..]);
      ErrorCountAppend(BlockEvent(blocks[0]), BlockEvents(blocks[1..]));
    }
  }

  /** Classification never produces an error event. */
  lemma {:induction false} ClassifiedHasNoError(msgs: seq<Sdk.Message>)
    ensures ErrorCount(Classified(msgs)) == 0
  {
    if msgs != [] {
      ClassifiedHasNoError(msgs[1..]);
      if msgs[0].AssistantMessage? {
        BlockEventsHaveNoError(msgs[0].content);
      }
      ErrorCountAppend(Classify(msgs[0]), Classified(msgs[1..]));
    }
  }

  /** A run emits exactly one error event when the SDK raised and the session was not closed,
      and none otherwise (in particular none when it was cancelled); the error comes last. */
  lemma RunErrorCount(msgs: seq<Sdk.Message>, ending: Ending, closed: bool)
    ensures ErrorCount(RunEvents(msgs, ending, closed)) == if ending.Raised? && !closed then 1 else 0
    ensures ending.Raised? && !closed ==> RunEvents(msgs, ending, closed)[|RunEvents(msgs, ending, closed)| - 1] == Error(ending.message)
  {
    if !closed {
      ClassifiedHasNoError(msgs);
      var tail: seq<OutputEvent> := if ending.Raised? then [Error(ending.message)] else [];
      ErrorCountAppend(Classified(msgs), tail);
    }
  }

  // ---------------------------------------------------------------------------------------
  // Queues with a None sentinel

  /** The items a reader takes before it meets the first `None`. */
  function TakeUntilNone<T>(q: seq<Option<T>>): (r: seq<T>)
    ensures |r| <= |q|
  {
    if q == [] then [] else if q[0].None? then [] else [q[0].value] + TakeUntilNone(q[1..])
  }

  /** What is left in the queue after the reader has taken the first `None` (empty if there is
      no `None`: the reader has drained it and waits). */
  function DropThroughNone<T>(q: seq<Option<T>>): (r: seq<Option<T>>)
    ensures |r| <= |q|
  {
    if q == [] then [] else if q[0].None? then q[1..] else DropThroughNone(q[1..])
  }

  /** One entry taken off the queue by the reader, which has taken `texts` so far: a `None`
      ends the read, an item is one more text. */
  lemma TakeStep<T>(q0: seq<Option<T>>, q: seq<Option<T>>, texts: seq<T>)
    requires q != []
    requires TakeUntilNone(q0) == texts + TakeUntilNone(q)
    requires DropThroughNone(q0) == DropThroughNone(q)
    requires None in q0 <==> None in q
    ensures q[0].None? ==> TakeUntilNone(q0) == texts && DropThroughNone(q0) == q[1..] && None in q0
    ensures q[0].Some? ==>
      && TakeUntilNone(q0) == texts + [q[0].value] + TakeUntilNone(q[1..])
      && DropThroughNone(q0) == DropThroughNone(q[1..])
      && (None in q0 <==> None in q[1..])
  {
    assert q == [q[0]] + q[1..];
    if q[0].None? {
      assert texts + [] == texts;
    } else {
      assert texts + ([q[0].value] + TakeUntilNone(q[1..])) == texts + [q[0].value] + TakeUntilNone(q[1..]);
    }
  }

  lemma TurnsStep(texts: seq<string>, text: string)
    ensures UserTurns(texts + [text]) == UserTurns(texts) + [UserTurnFor(text)]
  {
  }

  /** The items as present queue entries. */
  function Somes<T>(xs: seq<T>): (q: seq<Option<T>>)
    ensures |q| == |xs|
  {
    if xs == [] then [] else [Some(xs[0])] + Somes(xs[1..])
  }

  lemma {:induction false} SomesAt<T>(xs: seq<T>, i: nat)
    requires i < |xs|
    ensures Somes(xs)[i] == Some(xs[i])
  {
    if i > 0 {
      SomesAt(xs[1..], i - 1);
    }
  }

  /** One more block classified: its event (if any) follows those of the blocks before it. */
  lemma BlockStep(blocks: seq<Sdk.ContentBlock>, j: nat)
    requires j < |blocks|
    ensures Somes(BlockEvents(blocks[..j + 1])) == Somes(BlockEvents(blocks[..j])) + Somes(BlockEvent(blocks[j]))
    ensures Somes(BlockEvent(blocks[j])) == if blocks[j].OtherBlock? then [] else [Some(BlockEvent(blocks[j])[0])]
  {
    assert blocks[..j + 1] == blocks[..j] + [blocks[j]];
    BlockEventsAppend(blocks[..j], [blocks[j]]);
    assert BlockEvents([blocks[j]]) == BlockEvent(blocks[j]);
    SomesAppend(BlockEvents(blocks[..j]), BlockEvent(blocks[j]));
  }

  /** The queue after one more block of an assistant message, case by case. */
  lemma BlockQueued(blocks: seq<Sdk.ContentBlock>, j: nat, q0: seq<Option<OutputEvent>>, q: seq<Option<OutputEvent>>)
    requires j < |blocks|
    requires q == q0 + Somes(BlockEvents(blocks[..j]))
    ensures blocks[j].TextBlock? ==>
      q + [Some(AssistantMessage(blocks[j].text))] == q0 + Somes(BlockEvents(blocks[..j + 1]))
    ensures blocks[j].ToolUseBlock? ==>
      q + [Some(ToolUse(blocks[j].name, blocks[j].id, blocks[j].input))] == q0 + Somes(BlockEvents(blocks[..j + 1]))
    ensures blocks[j].OtherBlock? ==> q == q0 + Somes(BlockEvents(blocks[..j + 1]))
  {
    var before, added := Somes(BlockEvents(blocks[..j])), Somes(BlockEvent(blocks[j]));
    BlockStep(blocks, j);
    assert q0 + before + added == q0 + (before + added);
  }

  /** One more message classified: its events follow those of the messages before it. */
  lemma MessageStep(msgs: seq<Sdk.Message>, i: nat)
    requires i < |msgs|
    ensures Somes(Classified(msgs[..i + 1])) == Somes(Classified(msgs[..i])) + Somes(Classify(msgs[i]))
  {
    assert msgs[..i + 1] == msgs[..i] + [msgs[i]];
    ClassifiedAppend(msgs[..i], [msgs[i]]);
    assert Classified([msgs[i]]) == Classify(msgs[i]);
    SomesAppend(Classified(msgs[..i]), Classify(msgs[i]));
  }

  lemma {:induction false} SomesAppend<T>(a: seq<T>, b: seq<T>)
    ensures Somes(a + b) == Somes(a) + Somes(b)
  {
    if a == [] {
      assert a + b == b;
    } else {
      assert (a + b)[1..] == a[1..] + b;
      SomesAppend(a[1..], b);
    }
  }

  /** Present items in front of a queue are read first and do not change what comes after. */
  lemma {:induction false} SomesThenQueue<T>(xs: seq<T>, q: seq<Option<T>>)
    ensures TakeUntilNone(Somes(xs) + q) == xs + TakeUntilNone(q)
    ensures DropThroughNone(Somes(xs) + q) == DropThroughNone(q)
    ensures None in Somes(xs) + q <==> None in q
  {
    if xs != [] {
      var s := Somes(xs) + q;
      assert s[0] == Some(xs[0]);
      assert s[1..] == Somes(xs[1..]) + q;
      SomesThenQueue(xs[1..], q);
    } else {
      assert Somes(xs) + q == q;
    }
  }

  /** FIFO: appending an item to a queue without sentinel makes it the last item read. */
  lemma TakeUntilNoneAppend<T>(q: seq<Option<T>>, x: T)
    requires None !in q
    ensures TakeUntilNone(q + [Some(x)]) == TakeUntilNone(q) + [x]
  {
    assert q == Somes(TakeUntilNoneAll(q));
    SomesThenQueue(TakeUntilNoneAll(q), [Some(x)]);
    SomesThenQueue(TakeUntilNoneAll(q), []);
    assert Somes(TakeUntilNoneAll(q)) + [] == q;
  }

  /** The values of a queue without sentinel, in order. */
  function TakeUntilNoneAll<T>(q: seq<Option<T>>): (xs: seq<T>)
    requires None !in q
    ensures Somes(xs) == q
  {
    if q == [] then []
    else
      assert q[1..] == q[1..] && forall k | 0 <= k < |q[1..]| :: q[1..][k] == q[k + 1];
      assert None !in q[1..];
      [q[0].value] + TakeUntilNoneAll(q[1..])
  }

  /** A reader stops at the first sentinel: nothing queued after it is ever read. */
  lemma ReadStopsAtSentinel<T>(xs: seq<T>, rest: seq<Option<T>>)
    ensures TakeUntilNone(Somes(xs) + [None] + rest) == xs
    ensures DropThroughNone(Somes(xs) + [None] + rest) == rest
  {
    assert Somes(xs) + [None] + rest == Somes(xs) + ([None] + rest);
    SomesThenQueue(xs, [None] + rest);
  }

  /** A run's emissions followed by its sentinel hold `None` at the last place only. */
  lemma SentinelOnlyLast<T>(xs: seq<T>)
    ensures var q := Somes(xs) + [None];
      forall i | 0 <= i < |q| :: q[i].None? <==> i == |q| - 1
  {
    var q := Somes(xs) + [None];
    forall i | 0 <= i < |q|
      ensures q[i].None? <==> i == |q| - 1
    {
      if i < |xs| {
        SomesAt(xs, i);
      }
    }
  }

  /** Whatever a run emitted, a reader of the output queue that has consumed everything before
      it reads exactly those events and then stops: the run's sentinel is the only `None` it
      appends, and it is appended last. */
  lemma RunIsReadThenEnds(msgs: seq<Sdk.Message>, ending: Ending, closed: bool)
    ensures var emitted := Somes(RunEvents(msgs, ending, closed)) + [None];
      && (forall i | 0 <= i < |emitted| :: emitted[i].None? <==> i == |emitted| - 1)
      && TakeUntilNone(emitted) == RunEvents(msgs, ending, closed)
      && DropThroughNone(emitted) == []
  {
    SentinelOnlyLast(RunEvents(msgs, ending, closed));
    ReadStopsAtSentinel(RunEvents(msgs, ending, closed), []);
    assert Somes(RunEvents(msgs, ending, closed)) + [None] + [] == Somes(RunEvents(msgs, ending, closed)) + [None];
  }

  lemma ConsumeStep(q0: seq<Option<OutputEvent>>, q: seq<Option<OutputEvent>>, msgs: seq<Sdk.Message>, i: nat)
    requires i < |msgs|
    requires q == q0 + Somes(Classified(msgs[..i]))
    ensures q + Somes(Classify(msgs[i])) == q0 + Somes(Classified(msgs[..i + 1]))
  {
    MessageStep(msgs, i);
    Appended(q0, Somes(Classified(msgs[..i])), Somes(Classify(msgs[i])), Somes(Classified(msgs[..i + 1])));
  }

  lemma Appended<T>(q0: seq<T>, before: seq<T>, added: seq<T>, after: seq<T>)
    requires after == before + added
    ensures q0 + before + added == q0 + after
  {
  }

  /** The run loop's part and the ending's part of the queue make up the run's events. */
  lemma RunQueued(q0: seq<Option<OutputEvent>>, q1: seq<Option<OutputEvent>>, q2: seq<Option<OutputEvent>>,
                  msgs: seq<Sdk.Message>, ending: Ending, closed: bool, broke: bool)
    requires broke <==> closed && msgs != []
    requires q1 == q0 + Somes(if closed then [] else Classified(msgs))
    requires q2 == q1 + Somes(if !broke && ending.Raised? && !closed then [Error(ending.message)] else []) + [None]
    ensures q2 == q0 + Somes(RunEvents(msgs, ending, closed)) + [None]
  {
    var tail: seq<OutputEvent> := if ending.Raised? then [Error(ending.message)] else [];
    if closed {
      assert q1 == q0 + [];
    } else {
      SomesAppend(Classified(msgs), tail);
      Appended(q0, Somes(Classified(msgs)), Somes(tail), Somes(RunEvents(msgs, ending, closed)));
    }
  }

  lemma PrefixWhole(msgs: seq<Sdk.Message>)
    ensures Classified(msgs[..|msgs|]) == Classified(msgs)
  {
    assert msgs[..|msgs|] == msgs;
  }

  // ---------------------------------------------------------------------------------------
  // The driver object

  class AgentSession {
    var inputQueue: seq<Option<string>>
    var outputQueue: seq<Option<OutputEvent>>
    var task: TaskState
    var closed: bool
    /** How many times the run loop has started: never more than once. */
    ghost var runs: nat

    ghost predicate Valid()
      reads this
    {
      runs <= 1 && (task != Done ==> runs == 0)
    }

    constructor ()
      ensures Valid()
      ensures inputQueue == [] && outputQueue == [] && task == NoTask && !closed && runs == 0
    {
      inputQueue, outputQueue := [], [];
      task, closed := NoTask, false;
      runs := 0;
    }

    /** `start`: creates the run task only when none exists. */
    method Start()
      requires Valid()
      modifies this`task
      ensures Valid()
      ensures task == if old(task) == NoTask then Pending else old(task)
    {
      if task == NoTask {
        task := Pending;
      }
    }

    /** `send_message`: starts the session and queues the text behind everything queued before. */
    method SendMessage(content: string)
      requires Valid()
      modifies this`task, this`inputQueue
      ensures Valid()
      ensures task == if old(task) == NoTask then Pending else old(task)
      ensures inputQueue == old(inputQueue) + [Some(content)]
    {
      Start();
      inputQueue := inputQueue + [Some(content)];
    }

    /** The prompt stream the SDK reads: while the session is not closed it takes texts off
        the input queue in order and yields each as a user turn, ending at the first `None`.
        It stops here when the queue runs dry (the real stream would wait for more). */
    method PromptStream() returns (turns: seq<UserTurn>, finished: bool)
      modifies this`inputQueue
      ensures old(closed) ==> turns == [] && finished && inputQueue == old(inputQueue)
      ensures !old(closed) ==>
        && turns == UserTurns(TakeUntilNone(old(inputQueue)))
        && finished == (None in old(inputQueue))
        && inputQueue == DropThroughNone(old(inputQueue))
    {
      turns, finished := [], false;
      if closed {
        finished := true;
        return;
      }
      ghost var texts: seq<string> := [];
      while !finished && inputQueue != []
        invariant turns == UserTurns(texts)
        invariant !finished ==>
          && TakeUntilNone(old(inputQueue)) == texts + TakeUntilNone(inputQueue)
          && DropThroughNone(old(inputQueue)) == DropThroughNone(inputQueue)
          && (None in old(inputQueue) <==> None in inputQueue)
        invariant finished ==>
          && TakeUntilNone(old(inputQueue)) == texts
          && DropThroughNone(old(inputQueue)) == inputQueue
          && None in old(inputQueue)
        decreases |inputQueue|, !finished
      {
        var content := inputQueue[0];
        TakeStep(old(inputQueue), inputQueue, texts);
        inputQueue := inputQueue[1..];
        if content.None? {
          finished := true;
        } else {
          TurnsStep(texts, content.value);
          texts := texts + [content.value];
          turns := turns + [UserTurnFor(content.value)];
        }
      }
    }

    /** `_run_query` executed by the scheduler: classifies the SDK's messages into the output
        queue, and however the stream ends appends exactly one sentinel last. */
    method RunQuery(msgs: seq<Sdk.Message>, ending: Ending)
      requires Valid() && task == Pending
      modifies this`outputQueue, this`task, this`runs
      ensures Valid() && task == Done && runs == 1
      ensures outputQueue == old(outputQueue) + Somes(RunEvents(msgs, ending, closed)) + [None]
    {
      runs := runs + 1;
      ghost var q0 := outputQueue;
      var broke := ConsumeStream(msgs);
      ghost var q1 := outputQueue;
      EndRun(ending, broke);
      RunQueued(q0, q1, outputQueue, msgs, ending, closed, broke);
      task := Done;
    }

    /** The `async for` over the SDK's messages: each is classified onto the output queue,
        unless the session is closed, which breaks out before the next message. */
    method ConsumeStream(msgs: seq<Sdk.Message>) returns (broke: bool)
      modifies this`outputQueue
      ensures broke <==> closed && msgs != []
      ensures outputQueue == old(outputQueue) + Somes(if closed then [] else Classified(msgs))
    {
      broke := false;
      ghost var q0 := outputQueue;
      var i := 0;
      while i < |msgs|
        invariant 0 <= i <= |msgs|
        invariant closed ==> i == 0
        invariant !broke
        invariant outputQueue == q0 + Somes(Classified(msgs[..i]))
      {
        if closed {
          assert msgs[..i] == [] && q0 + [] == q0;
          broke := true;
          return;
        }
        ghost var before := outputQueue;
        EmitMessage(msgs[i]);
        ConsumeStep(q0, before, msgs, i);
        i := i + 1;
      }
      PrefixWhole(msgs);
      if closed {
        assert msgs == [] && q0 + [] == q0;
      }
    }

    /** The `except` and `finally` arms: a raised error becomes one error event unless the
        session is closed, cancellation is silent, and the sentinel always comes last. */
    method EndRun(ending: Ending, broke: bool)
      modifies this`outputQueue
      ensures outputQueue == old(outputQueue)
        + Somes(if !broke && ending.Raised? && !closed then [Error(ending.message)] else []) + [None]
    {
      if !broke {
        match ending {
          case Completed =>
          case Cancelled =>
          case Raised(message) =>
            if !closed {
              outputQueue := outputQueue + [Some(Error(message))];
            }
        }
      }
      outputQueue := outputQueue + [None];
    }

    /** The body of the run loop for one SDK message: an assistant message's text and
        tool-use blocks become events in block order, a result message one result event. */
    method EmitMessage(m: Sdk.Message)
      modifies this`outputQueue
      ensures outputQueue == old(outputQueue) + Somes(Classify(m))
    {
      match m {
        case AssistantMessage(blocks) =>
          ghost var q0 := outputQueue;
          var j := 0;
          while j < |blocks|
            invariant 0 <= j <= |blocks|
            invariant outputQueue == q0 + Somes(BlockEvents(blocks[..j]))
          {
            BlockQueued(blocks, j, q0, outputQueue);
            match blocks[j] {
              case TextBlock(text) =>
                outputQueue := outputQueue + [Some(AssistantMessage(text))];
              case ToolUseBlock(id, name, input) =>
                outputQueue := outputQueue + [Some(ToolUse(name, id, input))];
              case OtherBlock =>
            }
            j := j + 1;
          }
          assert blocks[..j] == blocks;
        case ResultMessage(isError, cost, durationMs) =>
          outputQueue := outputQueue + [Some(ResultEvent(isError, cost, durationMs))];
        case OtherMessage =>
      }
    }

    /** One `await self._output_queue.get()`. */
    method PullOutput() returns (p: Pull)
      requires Valid()
      modifies this`outputQueue
      ensures Valid()
      ensures old(outputQueue) == [] ==> p == WouldBlock && outputQueue == []
      ensures old(outputQueue) != [] ==>
        && outputQueue == old(outputQueue)[1..]
        && p == if old(outputQueue)[0].None? then EndOfStream else Item(old(outputQueue)[0].value)
    {
      if outputQueue == [] {
        p := WouldBlock;
      } else {
        var head := outputQueue[0];
        outputQueue := outputQueue[1..];
        p := if head.None? then EndOfStream else Item(head.value);
      }
    }

    /** `get_output_stream`: starts the session, then yields output events in order until the
        first sentinel. It stops here when the queue runs dry (the real stream would wait). */
    method GetOutputStream() returns (events: seq<OutputEvent>, ended: bool)
      requires Valid()
      modifies this`outputQueue, this`task
      ensures Valid()
      ensures task == if old(task) == NoTask then Pending else old(task)
      ensures events == TakeUntilNone(old(outputQueue))
      ensures ended == (None in old(outputQueue))
      ensures outputQueue == DropThroughNone(old(outputQueue))
    {
      Start();
      events, ended := [], false;
      var waiting := false;
      while !ended && !waiting
        invariant Valid() && task == if old(task) == NoTask then Pending else old(task)
        invariant waiting ==> outputQueue == [] && !ended
        invariant !ended ==>
          && TakeUntilNone(old(outputQueue)) == events + TakeUntilNone(outputQueue)
          && DropThroughNone(old(outputQueue)) == DropThroughNone(outputQueue)
          && (None in old(outputQueue) <==> None in outputQueue)
        invariant ended ==>
          && TakeUntilNone(old(outputQueue)) == events
          && DropThroughNone(old(outputQueue)) == outputQueue
          && None in old(outputQueue)
        decreases |outputQueue|, !waiting, !ended
      {
        ghost var q := outputQueue;
        var p := PullOutput();
        if q != [] {
          assert q == [q[0]] + q[1..];
        }
        match p {
          case WouldBlock => waiting := true;
          case EndOfStream => ended := true;
          case Item(e) => events := events + [e];
        }
      }
    }

    /** `close`: marks the session closed, queues one more `None` for the prompt stream (on
        every call), and cancels the run task if it has not finished; a task cancelled before
        it has started never runs its body. */
    method Close()
      requires Valid()
      modifies this`closed, this`inputQueue, this`task
      ensures Valid()
      ensures closed
      ensures inputQueue == old(inputQueue) + [None]
      ensures task == if old(task) == Pending then Done else old(task)
    {
      closed := true;
      inputQueue := inputQueue + [None];
      if task == Pending {
        task := Done;
      }
    }
  }
}
