/** Clients of the model that walk through the system's typical flows on concrete values. */
module Scenarios {
  import opened Wrappers
  import Sdk
  import Agent
  import ChatStore
  import Sessions

  /** Deleting a chat reports that it existed; deleting it again reports that it did not. */
  method DeleteTwice() returns (first: bool, second: bool)
    ensures first && !second
  {
    var store := new ChatStore.ChatStore();
    var _ := store.CreateChat(None, "c1", "2024-01-01T00:00:00");
    first := store.DeleteChat("c1");
    second := store.DeleteChat("c1");
  }

  /** Texts sent to the driver reach the SDK as user turns in the order they were sent. */
  method PromptsInOrder() returns (turns: seq<Agent.UserTurn>, finished: bool)
    ensures turns == [Agent.UserTurnFor("a"), Agent.UserTurnFor("b")]
    ensures !finished
  {
    var agent := new Agent.AgentSession();
    agent.SendMessage("a");
    agent.SendMessage("b");
    assert agent.inputQueue == [Some("a"), Some("b")];
    turns, finished := agent.PromptStream();
  }

  /** One chat turn end to end, on values, part one: the driver answers with a text (and a
      block the classifier drops) and a result and ends normally; the listener of a chat the
      store knows relays both events, stamped with the chat id, stores the answer's text and
      ends on the sentinel with nothing left in the queue. */
  lemma ChatTurnRelayed()
    ensures var answer := [
        Sdk.AssistantMessage([Sdk.TextBlock("hello"), Sdk.OtherBlock]),
        Sdk.ResultMessage(Some(false), None, Some(5))];
      var d := Sessions.Drain(Agent.Somes(Agent.RunEvents(answer, Agent.Completed, false)) + [None], true, "c1");
      && d.sent == [
        Sessions.Event(Agent.AssistantMessage("hello"), "c1"),
        Sessions.Event(Agent.Result(true, None, 5), "c1")]
      && d.stored == ["hello"] && d.rest == [] && d.outcome == Sessions.Finished
  {
    var answer := [
      Sdk.AssistantMessage([Sdk.TextBlock("hello"), Sdk.OtherBlock]),
      Sdk.ResultMessage(Some(false), None, Some(5))];
    var events := [Agent.AssistantMessage("hello"), Agent.Result(true, None, 5)];
    assert Agent.BlockEvents([Sdk.TextBlock("hello"), Sdk.OtherBlock]) == [Agent.AssistantMessage("hello")];
    assert Agent.Classified(answer) == events;
    Sessions.RelayWholeRun(answer, Agent.Completed, false, "c1");
    assert Sessions.Fanout(events, "c1") == [
      Sessions.Event(Agent.AssistantMessage("hello"), "c1"),
      Sessions.Event(Agent.Result(true, None, 5), "c1")];
    assert Sessions.AssistantTexts(events) == ["hello"];
  }

  /** Part two: the user's "hi" names the new chat, and the stored answer follows the user's
      message in the chat's list. */
  lemma ChatTurnStored()
    ensures ChatStore.TitleAfter(ChatStore.NewChatTitle, "user", "hi") == "hi"
    ensures var user := ChatStore.ChatMessage("m1", "c1", "user", "hi", "t1");
      Sessions.MessagesAfter(map["c1" := [user]], "c1", Sessions.Records(["hello"], "c1", _ => "m2", _ => "t2"))
        == map["c1" := [user, ChatStore.ChatMessage("m2", "c1", "assistant", "hello", "t2")]]
  {
    var user := ChatStore.ChatMessage("m1", "c1", "user", "hi", "t1");
    var records := Sessions.Records(["hello"], "c1", _ => "m2", _ => "t2");
    var both := [user, ChatStore.ChatMessage("m2", "c1", "assistant", "hello", "t2")];
    assert records == [ChatStore.ChatMessage("m2", "c1", "assistant", "hello", "t2")];
    assert [user] + records == both;
    assert map["c1" := [user]]["c1" := both] == map["c1" := both];
  }
}
