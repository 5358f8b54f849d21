/** The in-memory chat store of main.py: chats by id, each with its message list. Ids and
    timestamps are supplied by the caller (they come from `uuid4` and the UTC clock);
    timestamps are ISO strings and are ordered as strings, as Python compares them. */
module ChatStore {
  import opened Wrappers
  import Strings

  const NewChatTitle := "New Chat"
  /** Titles taken from a first user message keep this many characters. */
  const TitleLength := 50
  const Ellipsis := "..."

  /** A chat. The store replaces a chat's entry when a message changes its title or its
      `updatedAt`. */
  datatype Chat = Chat(id: string, title: string, createdAt: string, updatedAt: string)

  datatype ChatMessage = ChatMessage(id: string, chatId: string, role: string, content: string, timestamp: string)

  /** `title or "New Chat"`: a missing or empty title gives the default. */
  function InitialTitle(title: Option<string>): (t: string)
    ensures t != []
    ensures title.Some? && title.value != [] ==> t == title.value
    ensures title.None? || title.value == [] ==> t == NewChatTitle
  {
    match title
    case Some(s) => if s != [] then s else NewChatTitle
    case None => NewChatTitle
  }

  /** The title made from a first user message: its first 50 characters, followed by "..."
      exactly when something was cut off. */
  function DerivedTitle(content: string): (t: string)
    ensures |t| <= TitleLength + |Ellipsis|
    ensures |content| <= TitleLength ==> t == content
    ensures |content| > TitleLength ==>
      && |t| == TitleLength + |Ellipsis|
      && t[..TitleLength] == content[..TitleLength]
      && t[TitleLength..] == Ellipsis
  {
    if |content| > TitleLength then content[..TitleLength] + Ellipsis else content
  }

  /** The title of a chat after a message with this role and content has been added. */
  function TitleAfter(title: string, role: string, content: string): (t: string)
    ensures t != title ==> title == NewChatTitle && role == "user"
    ensures title == NewChatTitle && role == "user" ==> t == DerivedTitle(content)
  {
    if title == NewChatTitle && role == "user" then DerivedTitle(content) else title
  }

  /** Assistant messages never change a title. */
  lemma AssistantKeepsTitle(title: string, content: string)
    ensures TitleAfter(title, "assistant", content) == title
  {
  }

  /** Once a user message has renamed a chat, later messages keep that name, unless the
      message itself read "New Chat", which leaves the chat open to renaming. */
  lemma {:induction false} RetitledOnce(title: string, first: string, role: string, later: string)
    requires TitleAfter(title, "user", first) != NewChatTitle
    ensures TitleAfter(TitleAfter(title, "user", first), role, later) == TitleAfter(title, "user", first)
  {
  }

  /** A first message reading "New Chat" does not rename the chat. */
  lemma NewChatMessageKeepsDefault()
    ensures TitleAfter(NewChatTitle, "user", NewChatTitle) == NewChatTitle
  {
  }

  /** Newest first: `updatedAt` never increases along the sequence. */
  predicate NewestFirst(cs: seq<Chat>)
  {
    forall i | 0 <= i < |cs| - 1 :: Strings.LexLe(cs[i + 1].updatedAt, cs[i].updatedAt)
  }

  predicate Distinct<T(==)>(xs: seq<T>)
  {
    forall i, j | 0 <= i < j < |xs| :: xs[i] != xs[j]
  }

  class ChatStore {
    var chats: map<string, Chat>
    var messages: map<string, seq<ChatMessage>>

    /** Both maps have the same keys; each chat sits under its own id and each message list
        under the id its messages name. */
    ghost predicate Valid()
      reads this
    {
      && chats.Keys == messages.Keys
      && (forall k | k in chats :: chats[k].id == k)
      && (forall k | k in messages :: forall m | m in messages[k] :: m.chatId == k)
    }

    constructor ()
      ensures Valid() && chats == map[] && messages == map[]
    {
      chats, messages := map[], map[];
    }

    /** `create_chat` with the id and the clock reading given: the new chat replaces any chat
        stored under the same id, and its message list starts empty. */
    method CreateChat(title: Option<string>, chatId: string, now: string) returns (chat: Chat)
      requires Valid()
      modifies this
      ensures Valid()
      ensures chat == Chat(chatId, InitialTitle(title), now, now)
      ensures chats == old(chats)[chatId := chat]
      ensures messages == old(messages)[chatId := []]
    {
      chat := Chat(chatId, InitialTitle(title), now, now);
      chats := chats[chatId := chat];
      messages := messages[chatId := []];
    }

    function GetChat(chatId: string): (c: Option<Chat>)
      reads this
      ensures c.Some? <==> chatId in chats
      ensures c.Some? ==> c.value in chats.Values
      ensures Valid() && c.Some? ==> c.value.id == chatId
    {
      if chatId in chats then Some(chats[chatId]) else None
    }

    function GetMessages(chatId: string): (ms: seq<ChatMessage>)
      reads this
      ensures chatId !in messages ==> ms == []
      ensures Valid() ==> forall m | m in ms :: m.chatId == chatId
    {
      if chatId in messages then messages[chatId] else []
    }

    /** `delete_chat`: reports whether the chat existed; afterwards neither map holds it. */
    method DeleteChat(chatId: string) returns (existed: bool)
      requires Valid()
      modifies this
      ensures Valid()
      ensures existed <==> chatId in old(chats)
      ensures chats == old(chats) - {chatId}
      ensures messages == old(messages) - {chatId}
      ensures GetChat(chatId) == None && GetMessages(chatId) == []
    {
      messages := messages - {chatId};
      existed := chatId in chats;
      chats := chats - {chatId};
    }

    /** `add_message` with the new message's id and the clock reading given. An unknown chat
        is an error and changes nothing; otherwise the message goes to the end of the chat's
        list, the chat's `updatedAt` becomes its timestamp and its title follows `TitleAfter`.
        No other chat and no other list changes. */
    method AddMessage(chatId: string, role: string, content: string, msgId: string, now: string)
      returns (r: Result<ChatMessage>)
      requires Valid()
      modifies this
      ensures Valid()
      ensures chatId !in old(messages) ==>
        && r == Err("Chat " + chatId + " not found")
        && messages == old(messages) && chats == old(chats)
      ensures chatId in old(messages) ==>
        && r == Ok(ChatMessage(msgId, chatId, role, content, now))
        && messages == old(messages)[chatId := old(messages)[chatId] + [r.value]]
        && chats == old(chats)[chatId := Touched(old(chats)[chatId], role, content, now)]
    {
      if chatId !in messages {
        return Err("Chat " + chatId + " not found");
      }
      var msg := ChatMessage(msgId, chatId, role, content, now);
      messages := messages[chatId := messages[chatId] + [msg]];
      if chatId in chats {
        var chat := chats[chatId].(updatedAt := msg.timestamp);
        if chat.title == NewChatTitle && role == "user" {
          chat := chat.(title := DerivedTitle(content));
        }
        chats := chats[chatId := chat];
      }
      r := Ok(msg);
    }

    /** `get_all_chats`: every stored chat exactly once, newest `updatedAt` first. */
    method GetAllChats() returns (result: seq<Chat>)
      requires Valid()
      ensures Distinct(result)
      ensures forall c :: c in result <==> c in chats.Values
      ensures |result| == |chats|
      ensures NewestFirst(result)
    {
      var todo := chats.Values;
      result := [];
      while todo != {}
        invariant todo <= chats.Values
        invariant forall c :: c in result <==> c in chats.Values && c !in todo
        invariant Distinct(result)
        invariant NewestFirst(result)
        decreases |todo|
      {
        var c :| c in todo;
        var j;
        result, j := InsertByStamp(c, result);
        todo := todo - {c};
      }
      DistinctCount(result);
      assert (set c | c in result) == chats.Values;
      ValuesCount(chats);
    }
  }

  /** A chat after a message: its `updatedAt` is the message's timestamp and its title
      follows `TitleAfter`; its id and creation time stay. */
  function Touched(chat: Chat, role: string, content: string, now: string): (c: Chat)
    ensures c.id == chat.id && c.createdAt == chat.createdAt && c.updatedAt == now
    ensures c.title == TitleAfter(chat.title, role, content)
  {
    Chat(chat.id, TitleAfter(chat.title, role, content), chat.createdAt, now)
  }

  /** Chats stored under their own ids are all different, so there are as many as keys. */
  lemma {:induction false} ValuesCount(m: map<string, Chat>)
    requires forall k | k in m :: m[k].id == k
    ensures |m.Values| == |m|
    decreases |m|
  {
    if m != map[] {
      var k :| k in m;
      var rest := m - {k};
      ValuesCount(rest);
      assert m.Values == rest.Values + {m[k]} by {
        forall c | c in m.Values
          ensures c in rest.Values || c == m[k]
        {
          var kc :| kc in m && m[kc] == c;
          if kc != k {
            assert rest[kc] == c;
          }
        }
        forall c | c in rest.Values
          ensures c in m.Values
        {
          var kc :| kc in rest && rest[kc] == c;
          assert m[kc] == c;
        }
      }
      assert m[k] !in rest.Values;
      assert |m| == |rest| + 1 by {
        assert m.Keys == rest.Keys + {k};
      }
    }
  }

  /** A sequence without repetitions has as many entries as it has distinct elements. */
  lemma {:induction false} DistinctCount<T>(xs: seq<T>)
    requires Distinct(xs)
    ensures |set x | x in xs| == |xs|
  {
    if xs != [] {
      var rest := xs[1..];
      assert Distinct(rest) by {
        forall i, j | 0 <= i < j < |rest|
          ensures rest[i] != rest[j]
        {
          assert rest[i] == xs[i + 1] && rest[j] == xs[j + 1];
        }
      }
      DistinctCount(rest);
      assert xs[0] !in rest by {
        forall i | 0 <= i < |rest|
          ensures rest[i] != xs[0]
        {
          assert rest[i] == xs[i + 1];
        }
      }
      assert (set x | x in xs) == (set x | x in rest) + {xs[0]} by {
        assert xs == [xs[0]] + rest;
      }
    }
  }

  /** Puts `c` into a newest-first list after every chat at least as recent. */
  method InsertByStamp(c: Chat, sorted: seq<Chat>) returns (r: seq<Chat>, j: nat)
    requires NewestFirst(sorted)
    ensures j <= |sorted| && r == sorted[..j] + [c] + sorted[j..]
    ensures NewestFirst(r)
    ensures forall x :: x in r <==> x in sorted || x == c
    ensures Distinct(sorted) && c !in sorted ==> Distinct(r)
    ensures forall i | 0 <= i < j :: Strings.LexLe(c.updatedAt, sorted[i].updatedAt)
    ensures j < |sorted| ==> !Strings.LexLe(c.updatedAt, sorted[j].updatedAt)
  {
    j := 0;
    while j < |sorted| && Strings.LexLe(c.updatedAt, sorted[j].updatedAt)
      invariant j <= |sorted|
      invariant forall i | 0 <= i < j :: Strings.LexLe(c.updatedAt, sorted[i].updatedAt)
    {
      j := j + 1;
    }
    r := sorted[..j] + [c] + sorted[j..];
    InsertedNewestFirst(c, sorted, j);
    InsertedElements(c, sorted, j);
    if Distinct(sorted) && c !in sorted {
      InsertedDistinct(c, sorted, j);
    }
  }

  /** Inserting `c` between a chat at least as recent and one older keeps the order. */
  lemma InsertedNewestFirst(c: Chat, sorted: seq<Chat>, j: nat)
    requires NewestFirst(sorted) && j <= |sorted|
    requires j > 0 ==> Strings.LexLe(c.updatedAt, sorted[j - 1].updatedAt)
    requires j < |sorted| ==> !Strings.LexLe(c.updatedAt, sorted[j].updatedAt)
    ensures NewestFirst(sorted[..j] + [c] + sorted[j..])
  {
    var r := sorted[..j] + [c] + sorted[j..];
    if j < |sorted| {
      Strings.LexLeTotal(c.updatedAt, sorted[j].updatedAt);
    }
    forall i | 0 <= i < |r| - 1
      ensures Strings.LexLe(r[i + 1].updatedAt, r[i].updatedAt)
    {
      if i + 1 < j {
        assert r[i] == sorted[i] && r[i + 1] == sorted[i + 1];
      } else if i + 1 == j {
        assert r[i] == sorted[j - 1] && r[i + 1] == c;
      } else if i == j {
        assert r[i] == c && r[i + 1] == sorted[j];
      } else {
        assert r[i] == sorted[i - 1] && r[i + 1] == sorted[i];
      }
    }
  }

  lemma InsertedElements(c: Chat, sorted: seq<Chat>, j: nat)
    requires j <= |sorted|
    ensures forall x :: x in sorted[..j] + [c] + sorted[j..] <==> x in sorted || x == c
  {
    assert sorted == sorted[..j] + sorted[j..];
  }

  lemma InsertedDistinct(c: Chat, sorted: seq<Chat>, j: nat)
    requires j <= |sorted| && Distinct(sorted) && c !in sorted
    ensures Distinct(sorted[..j] + [c] + sorted[j..])
  {
    var r := sorted[..j] + [c] + sorted[j..];
    forall a, b | 0 <= a < b < |r|
      ensures r[a] != r[b]
    {
      if b < j {
        assert r[a] == sorted[a] && r[b] == sorted[b];
      } else if b == j {
        assert r[a] == sorted[a] && r[b] == c;
      } else if a < j {
        assert r[a] == sorted[a] && r[b] == sorted[b - 1];
      } else if a == j {
        assert r[a] == c && r[b] == sorted[b - 1];
      } else {
        assert r[a] == sorted[a - 1] && r[b] == sorted[b - 1];
      }
    }
  }

}
