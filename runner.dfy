/** The single-turn runner of agent/runner.py: one query with defaulted options, whose reply
    is the text of the assistant's text blocks, one per line, with surrounding whitespace
    removed. The SDK's answer to the prompt is given as a finite sequence of messages. */
module Runner {
  import opened Wrappers
  import Sdk
  import Strings

  const DefaultSystemPrompt := "You are a helpful assistant."
  const DefaultMaxTurns := 10

  /** The options the runner passes to the query (the tool overrides are empty). */
  datatype Options = Options(systemPrompt: string, maxTurns: int)

  /** `system_prompt or ...` and `max_turns or 10`: a missing or empty prompt and a missing
      or zero turn limit take the defaults; any other value is used as given. */
  function OptionsFor(systemPrompt: Option<string>, maxTurns: Option<int>): (o: Options)
    ensures o.systemPrompt != [] && o.maxTurns != 0
    ensures systemPrompt.Some? && systemPrompt.value != [] ==> o.systemPrompt == systemPrompt.value
    ensures systemPrompt.None? || systemPrompt.value == [] ==> o.systemPrompt == DefaultSystemPrompt
    ensures maxTurns.Some? && maxTurns.value != 0 ==> o.maxTurns == maxTurns.value
    ensures maxTurns.None? || maxTurns.value == 0 ==> o.maxTurns == DefaultMaxTurns
  {
    var prompt := if systemPrompt.Some? && systemPrompt.value != [] then systemPrompt.value else DefaultSystemPrompt;
    var turns := if maxTurns.Some? && maxTurns.value != 0 then maxTurns.value else DefaultMaxTurns;
    Options(prompt, turns)
  }

  /** The texts of the text blocks, in order: at most one per block, and one for every block
      exactly when all of them are text blocks. */
  function BlockTexts(blocks: seq<Sdk.ContentBlock>): (texts: seq<string>)
    ensures |texts| <= |blocks|
    ensures |texts| == |blocks| <==> forall k | 0 <= k < |blocks| :: blocks[k].TextBlock?
  {
    if blocks == [] then []
    else (if blocks[0].TextBlock? then [blocks[0].text] else []) + BlockTexts(blocks[1..])
  }

  /** The texts of the text blocks of the assistant messages, in stream order: a stream
      without assistant messages gives none. */
  function TextParts(msgs: seq<Sdk.Message>): (parts: seq<string>)
    ensures (forall i | 0 <= i < |msgs| :: !msgs[i].AssistantMessage?) ==> parts == []
  {
    if msgs == [] then []
    else (if msgs[0].AssistantMessage? then BlockTexts(msgs[0].content) else []) + TextParts(msgs[1..])
  }

  /** The reply made of the collected parts: empty when there are none, otherwise no longer
      than their newline-join and with no whitespace at either end. */
  function Reply(parts: seq<string>): (r: string)
    ensures parts == [] ==> r == []
    ensures |r| <= |Strings.Join(parts, '\n')|
    ensures r != [] ==> !Strings.IsSpace(r[0]) && !Strings.IsSpace(r[|r| - 1])
  {
    if parts != [] then Strings.Strip(Strings.Join(parts, '\n')) else []
  }

  /** `run_agent` on the given answer stream: the options it builds and the reply it returns. */
  method RunAgent(message: string, systemPrompt: Option<string>, maxTurns: Option<int>, answer: seq<Sdk.Message>)
    returns (options: Options, reply: string)
    ensures options == OptionsFor(systemPrompt, maxTurns)
    ensures reply == Reply(TextParts(answer))
  {
    options := OptionsFor(systemPrompt, maxTurns);
    var textParts: seq<string> := [];
    var i := 0;
    while i < |answer|
      invariant 0 <= i <= |answer|
      invariant textParts == TextParts(answer[..i])
    {
      var msg := answer[i];
      ghost var before := textParts;
      if msg.AssistantMessage? {
        var j := 0;
        while j < |msg.content|
          invariant 0 <= j <= |msg.content|
          invariant textParts == before + BlockTexts(msg.content[..j])
        {
          var block := msg.content[j];
          if block.TextBlock? {
            textParts := textParts + [block.text];
          }
          BlockTextsStep(msg.content, j, before, textParts);
          j := j + 1;
        }
        assert msg.content[..j] == msg.content;
      }
      TextPartsStep(answer, i, before, textParts);
      i := i + 1;
    }
    assert answer[..i] == answer;
    reply := if textParts != [] then Strings.Strip(Strings.Join(textParts, '\n')) else [];
  }

  lemma BlockTextsStep(blocks: seq<Sdk.ContentBlock>, j: nat, before: seq<string>, parts: seq<string>)
    requires j < |blocks|
    requires parts == before + BlockTexts(blocks[..j]) + (if blocks[j].TextBlock? then [blocks[j].text] else [])
    ensures parts == before + BlockTexts(blocks[..j + 1])
  {
    assert blocks[..j + 1] == blocks[..j] + [blocks[j]];
    BlockTextsAppend(blocks[..j], [blocks[j]]);
  }

  lemma TextPartsStep(msgs: seq<Sdk.Message>, i: nat, before: seq<string>, parts: seq<string>)
    requires i < |msgs|
    requires before == TextParts(msgs[..i])
    requires parts == before + (if msgs[i].AssistantMessage? then BlockTexts(msgs[i].content) else [])
    ensures parts == TextParts(msgs[..i + 1])
  {
    assert msgs[..i + 1] == msgs[..i] + [msgs[i]];
    TextPartsAppend(msgs[..i], [msgs[i]]);
  }

  lemma {:induction false} BlockTextsAppend(a: seq<Sdk.ContentBlock>, b: seq<Sdk.ContentBlock>)
    ensures BlockTexts(a + b) == BlockTexts(a) + BlockTexts(b)
  {
    if a == [] {
      assert a + b == b;
    } else {
      assert (a + b)[1..] == a[1..] + b;
      BlockTextsAppend(a[1..], b);
    }
  }

  /** Parts are collected in stream order: the parts of a concatenated stream are those of
      its first half followed by those of its second half. */
  lemma {:induction false} TextPartsAppend(a: seq<Sdk.Message>, b: seq<Sdk.Message>)
    ensures TextParts(a + b) == TextParts(a) + TextParts(b)
  {
    if a == [] {
      assert a + b == b;
    } else {
      assert (a + b)[1..] == a[1..] + b;
      TextPartsAppend(a[1..], b);
    }
  }

  /** A block list contributes a part exactly when it holds a text block. */
  lemma {:induction false} BlockTextsEmpty(blocks: seq<Sdk.ContentBlock>)
    ensures BlockTexts(blocks) == [] <==> forall k | 0 <= k < |blocks| :: !blocks[k].TextBlock?
  {
    if blocks != [] {
      BlockTextsEmpty(blocks[1..]);
      assert forall k | 1 <= k < |blocks| :: blocks[1..][k - 1] == blocks[k];
    }
  }

  /** The parts are empty, and so the reply is "", exactly when no assistant message holds a
      text block. */
  lemma {:induction false} NoTextNoReply(msgs: seq<Sdk.Message>)
    ensures TextParts(msgs) == [] <==>
      forall i | 0 <= i < |msgs| :: msgs[i].AssistantMessage? ==> BlockTexts(msgs[i].content) == []
    ensures TextParts(msgs) == [] ==> Reply(TextParts(msgs)) == []
  {
    if msgs != [] {
      NoTextNoReply(msgs[1..]);
      assert forall i | 1 <= i < |msgs| :: msgs[1..][i - 1] == msgs[i];
    }
  }

  /** Every part is the text of some text block of some assistant message of the stream. */
  lemma {:induction false} PartsComeFromTextBlocks(msgs: seq<Sdk.Message>, p: string)
    requires p in TextParts(msgs)
    ensures exists i, k | 0 <= i < |msgs| && msgs[i].AssistantMessage? && 0 <= k < |msgs[i].content| ::
      msgs[i].content[k] == Sdk.TextBlock(p)
  {
    if msgs[0].AssistantMessage? && p in BlockTexts(msgs[0].content) {
      var k := BlockTextIndex(msgs[0].content, p);
      assert msgs[0].content[k] == Sdk.TextBlock(p);
    } else {
      PartsComeFromTextBlocks(msgs[1..], p);
      var i, k :| 0 <= i < |msgs[1..]| && msgs[1..][i].AssistantMessage? && 0 <= k < |msgs[1..][i].content|
        && msgs[1..][i].content[k] == Sdk.TextBlock(p);
      assert msgs[i + 1] == msgs[1..][i];
    }
  }

  /** The position of a text block holding `p`. */
  lemma {:induction false} BlockTextIndex(blocks: seq<Sdk.ContentBlock>, p: string) returns (k: nat)
    requires p in BlockTexts(blocks)
    ensures k < |blocks| && blocks[k] == Sdk.TextBlock(p)
  {
    if blocks[0] == Sdk.TextBlock(p) {
      k := 0;
    } else {
      var k' := BlockTextIndex(blocks[1..], p);
      k := k' + 1;
    }
  }

  /** The reply is the newline-joined text with only whitespace cut off on either side. */
  lemma ReplyIsTrimmedJoin(parts: seq<string>)
    ensures var joined, r := Strings.Join(parts, '\n'), Reply(parts);
      var i := |joined| - |Strings.LStrip(joined)|;
      && i + |r| <= |joined| && joined[i..i + |r|] == r
      && (forall k | 0 <= k < i :: Strings.IsSpace(joined[k]))
      && (forall k | i + |r| <= k < |joined| :: Strings.IsSpace(joined[k]))
  {
    var joined := Strings.Join(parts, '\n');
    if parts != [] {
      Strings.StripSlice(joined);
      Strings.StripCutsSpace(joined);
    }
  }

  /** Before stripping, the parts are separated by newlines: when no part holds a newline,
      splitting the joined text at newlines gives the parts back. */
  lemma JoinedPartsSplitBack(msgs: seq<Sdk.Message>)
    requires TextParts(msgs) != []
    requires forall p | p in TextParts(msgs) :: '\n' !in p
    ensures Strings.Split(Strings.Join(TextParts(msgs), '\n'), '\n') == TextParts(msgs)
  {
    Strings.SplitJoin(TextParts(msgs), '\n');
  }
}
