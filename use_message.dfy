/** The `useMessage` hook: the message list of the selected topic, its page
    cursor and `hasMore` flag, the optimistic send, and page loading.
    Asynchronous operations are split at their `await`: the request step
    says whether a request is made, and a later step applies its outcome. */
module UseMessage {
  import opened Values
  import opened JsText

  datatype Sender = User | AI

  /** A message as the chat window shows it. */
  datatype ChatMessage = ChatMessage(id: int, sender: Sender, text: string, createdAt: Option<string>)

  /** A message record as the server sends it. */
  datatype ServerMessage = ServerMessage(id: int, content: string, sender: string,
                                         createdAt: Option<string>, topicId: Option<int>,
                                         topicTitle: Option<string>)

  /** A topic as the topic list holds it (a created topic's `messages` list
      is always empty and is not modelled). */
  datatype Topic = Topic(id: int, title: string, createdAt: string)

  /** The `data` part of the create-message response. */
  datatype CreateResponse = CreateResponse(userMessage: ServerMessage, aiMessage: ServerMessage)

  /** What a `sendMessage` call keeps across its `await`: the temporary id,
      the text, and the topic id the hook had when the call was made (which
      is also the topic id of the create-message request). */
  datatype PendingSend = PendingSend(tempId: int, text: string, topic: Option<int>)

  const PageSize: nat := 20

  /** `!selectedTopicId` is false: a topic is selected and its id is not 0. */
  predicate IsTopicSelected(topic: Option<int>) {
    topic.Some? && topic.value != 0
  }

  /** The mapping of one fetched record. */
  function Format(m: ServerMessage): (c: ChatMessage)
    ensures c.id == m.id && c.text == m.content && c.createdAt == m.createdAt
    ensures c.sender == User <==> m.sender == "user"
  {
    ChatMessage(m.id, if m.sender == "user" then User else AI, m.content, m.createdAt)
  }

  function Reversed<T>(s: seq<T>): (r: seq<T>)
    ensures |r| == |s|
    ensures forall i | 0 <= i < |s| :: r[i] == s[|s| - 1 - i]
  {
    if s == [] then [] else Reversed(s[1..]) + [s[0]]
  }

  /** `[...fetched.map(format)].reverse()`: the server sends newest first,
      the list shows oldest first. */
  function Normalize(records: seq<ServerMessage>): (r: seq<ChatMessage>)
    ensures |r| == |records|
    ensures forall i | 0 <= i < |r| :: r[i] == Format(records[|records| - 1 - i])
  {
    Reversed(seq(|records|, i requires 0 <= i < |records| => Format(records[i])))
  }

  /** `list.filter((m) => m.id !== id)`. */
  function WithoutId(s: seq<ChatMessage>, id: int): (r: seq<ChatMessage>)
    ensures |r| <= |s|
    ensures forall m :: m in r <==> m in s && m.id != id
  {
    if s == [] then []
    else if s[0].id == id then WithoutId(s[1..], id)
    else [s[0]] + WithoutId(s[1..], id)
  }

  /** Filtering distributes over concatenation, so the messages that stay
      keep their relative order. */
  lemma {:induction false} WithoutIdAppend(a: seq<ChatMessage>, b: seq<ChatMessage>, id: int)
    ensures WithoutId(a + b, id) == WithoutId(a, id) + WithoutId(b, id)
  {
    if a == [] {
      assert a + b == b;
    } else {
      assert (a + b)[1..] == a[1..] + b;
      WithoutIdAppend(a[1..], b, id);
    }
  }

  /** Filtering a list that holds no message with that id changes nothing. */
  lemma {:induction false} WithoutAbsentId(s: seq<ChatMessage>, id: int)
    requires forall m | m in s :: m.id != id
    ensures WithoutId(s, id) == s
  {
    if s != [] {
      WithoutAbsentId(s[1..], id);
    }
  }

  /** A failed send whose temporary id no other message shares restores the
      list exactly as it was before the send. */
  lemma RollbackRestores(prev: seq<ChatMessage>, temp: ChatMessage)
    requires forall m | m in prev :: m.id != temp.id
    ensures WithoutId(prev + [temp], temp.id) == prev
  {
    WithoutIdAppend(prev, [temp], temp.id);
    WithoutAbsentId(prev, temp.id);
  }

  /** The server's user message as the list shows it. */
  function UserMessage(m: ServerMessage): (c: ChatMessage)
    ensures c.id == m.id && c.sender == User && c.text == m.content && c.createdAt == m.createdAt
  {
    ChatMessage(m.id, User, m.content, m.createdAt)
  }

  /** The server's AI reply as the list shows it. */
  function AiMessage(m: ServerMessage): (c: ChatMessage)
    ensures c.id == m.id && c.sender == AI && c.text == m.content && c.createdAt == m.createdAt
  {
    ChatMessage(m.id, AI, m.content, m.createdAt)
  }

  /** The topic reported when a send created one: missing fields default
      to id 0, title "" and creation time "". */
  function NewTopic(u: ServerMessage): (t: Topic)
    ensures t.id == (if u.topicId.Some? then u.topicId.value else 0)
    ensures t.title == (if u.topicTitle.Some? then u.topicTitle.value else "")
    ensures t.createdAt == (if u.createdAt.Some? then u.createdAt.value else "")
  {
    Topic(u.topicId.GetOr(0), u.topicTitle.GetOr(""), u.createdAt.GetOr(""))
  }

  class MessageStore {
    /** The `selectedTopicId` argument the hook was last rendered with. */
    var selectedTopicId: Option<int>
    var messages: seq<ChatMessage>
    var page: int
    var hasMore: bool
    /** Set when a topic is opened, cleared once its first page has
        settled. */
    var justOpenedTopic: bool

    ghost predicate Valid()
      reads this
    {
      page >= 1
    }

    /** The first render: the initial state, which the topic effect's first
        run leaves as it is (with no topic, it requests nothing). */
    constructor()
      ensures Valid()
      ensures selectedTopicId == None && messages == [] && page == 1 && hasMore && !justOpenedTopic
    {
      selectedTopicId, messages, page, hasMore := None, [], 1, true;
      justOpenedTopic := false;
    }

    /** The effect on `[selectedTopicId]`: reset the cursor and the list,
        and request page 1 when a topic is selected. */
    method ChangeTopic(id: Option<int>) returns (fetchFirst: bool)
      modifies this
      ensures Valid()
      ensures selectedTopicId == id && page == 1 && hasMore && messages == []
      ensures fetchFirst <==> IsTopicSelected(id)
      ensures justOpenedTopic == (IsTopicSelected(id) || old(justOpenedTopic))
    {
      selectedTopicId := id;
      page := 1;
      hasMore := true;
      messages := [];
      fetchFirst := IsTopicSelected(id);
      if fetchFirst {
        justOpenedTopic := true;
      }
    }

    /** `setMessages(list)`, which the hook hands to its caller. */
    method SetMessages(list: seq<ChatMessage>)
      requires Valid()
      modifies this
      ensures Valid()
      ensures messages == list
      ensures selectedTopicId == old(selectedTopicId) && page == old(page) && hasMore == old(hasMore)
      ensures justOpenedTopic == old(justOpenedTopic)
    {
      messages := list;
    }

    /** `loadMoreMessages` and the effect on `[page]` it triggers: the page
        advances only while `hasMore`; the new page is then requested, or,
        with no topic selected, the list is emptied instead. */
    method LoadMoreMessages() returns (fetch: Option<int>)
      requires Valid()
      modifies this
      ensures Valid()
      ensures page == (if old(hasMore) then old(page) + 1 else old(page))
      ensures hasMore == old(hasMore) && selectedTopicId == old(selectedTopicId)
      ensures justOpenedTopic == old(justOpenedTopic)
      ensures fetch == (if old(hasMore) && IsTopicSelected(selectedTopicId) then Some(page) else None)
      ensures messages == (if old(hasMore) && !IsTopicSelected(selectedTopicId) then [] else old(messages))
    {
      fetch := None;
      if hasMore {
        page := page + 1;
        if page > 1 {
          if !IsTopicSelected(selectedTopicId) {
            messages := [];
          } else {
            fetch := Some(page);
          }
        }
      }
    }

    /** The part of `loadMessages(currentPage)` after the fetch: a short page
        ends `hasMore`; page 1 replaces the list and a later page goes in
        front of it. A failed fetch changes nothing. */
    method ApplyPage(currentPage: int, outcome: Outcome<seq<ServerMessage>>)
      requires Valid()
      modifies this
      ensures Valid()
      ensures selectedTopicId == old(selectedTopicId) && page == old(page)
      ensures justOpenedTopic == old(justOpenedTopic)
      ensures outcome.Failed? ==> hasMore == old(hasMore) && messages == old(messages)
      ensures outcome.Ok? ==> hasMore == (old(hasMore) && |outcome.value| >= PageSize)
      ensures outcome.Ok? && currentPage == 1 ==> messages == Normalize(outcome.value)
      ensures outcome.Ok? && currentPage != 1 ==> messages == Normalize(outcome.value) + old(messages)
    {
      if outcome.Ok? {
        var normalized := Normalize(outcome.value);
        if |outcome.value| < PageSize {
          hasMore := false;
        }
        if currentPage == 1 {
          messages := normalized;
        } else {
          messages := normalized + messages;
        }
      }
    }

    /** `loadMessages(1).then(...)` from the topic effect: the first page
        is applied as any page is, and the flag is cleared whether or not
        the fetch succeeded. */
    method FirstPageSettled(outcome: Outcome<seq<ServerMessage>>)
      requires Valid()
      modifies this
      ensures Valid() && !justOpenedTopic
      ensures selectedTopicId == old(selectedTopicId) && page == old(page)
      ensures outcome.Failed? ==> hasMore == old(hasMore) && messages == old(messages)
      ensures outcome.Ok? ==> hasMore == (old(hasMore) && |outcome.value| >= PageSize)
                              && messages == Normalize(outcome.value)
    {
      ApplyPage(1, outcome);
      justOpenedTopic := false;
    }

    /** The part of `sendMessage(text)` before the request: blank text is
        ignored; otherwise a temporary user message goes at the end. */
    method BeginSend(text: string, tempId: int) returns (pending: Option<PendingSend>)
      requires Valid()
      modifies this
      ensures Valid()
      ensures selectedTopicId == old(selectedTopicId) && page == old(page) && hasMore == old(hasMore)
      ensures justOpenedTopic == old(justOpenedTopic)
      ensures IsBlank(text) ==> pending == None && messages == old(messages)
      ensures !IsBlank(text) ==> pending == Some(PendingSend(tempId, text, selectedTopicId))
                                 && messages == old(messages) + [ChatMessage(tempId, User, text, None)]
    {
      if Trim(text) == [] {
        return None;
      }
      messages := messages + [ChatMessage(tempId, User, text, None)];
      pending := Some(PendingSend(tempId, text, selectedTopicId));
    }

    /** The part of `sendMessage` after the request. Success drops every
        message carrying the temporary id and appends the server's user
        message and then its AI reply; when the call was made with no topic
        selected it also reports the new topic. Failure only drops the
        messages carrying the temporary id. */
    method CompleteSend(p: PendingSend, outcome: Outcome<CreateResponse>) returns (newTopic: Option<Topic>)
      requires Valid()
      modifies this
      ensures Valid()
      ensures selectedTopicId == old(selectedTopicId) && page == old(page) && hasMore == old(hasMore)
      ensures justOpenedTopic == old(justOpenedTopic)
      ensures outcome.Ok? ==> messages == WithoutId(old(messages), p.tempId)
                                          + [UserMessage(outcome.value.userMessage), AiMessage(outcome.value.aiMessage)]
      ensures outcome.Failed? ==> messages == WithoutId(old(messages), p.tempId)
      ensures newTopic == (if outcome.Ok? && !IsTopicSelected(p.topic)
                           then Some(NewTopic(outcome.value.userMessage)) else None)
    {
      newTopic := None;
      if outcome.Ok? {
        var res := outcome.value;
        if !IsTopicSelected(p.topic) {
          newTopic := Some(NewTopic(res.userMessage));
        }
        messages := WithoutId(messages, p.tempId) + [UserMessage(res.userMessage), AiMessage(res.aiMessage)];
      } else {
        messages := WithoutId(messages, p.tempId);
      }
    }
  }

  /** A whole send that fails, on a list where no message has the temporary
      id, leaves the list as it was. */
  method SendThenFail(store: MessageStore, text: string, tempId: int, error: Option<string>)
    requires store.Valid()
    requires forall m | m in store.messages :: m.id != tempId
    modifies store
    ensures store.Valid()
    ensures store.messages == old(store.messages)
  {
    var pending := store.BeginSend(text, tempId);
    if pending.Some? {
      RollbackRestores(old(store.messages), ChatMessage(tempId, User, text, None));
      var nt := store.CompleteSend(pending.value, Failed(error));
    }
  }

  /** A whole send that succeeds ends the list with the server's user
      message followed by its AI reply, after every earlier message (in its
      order) that does not share the temporary id. */
  method SendThenSucceed(store: MessageStore, text: string, tempId: int, res: CreateResponse)
    returns (newTopic: Option<Topic>)
    requires store.Valid()
    requires !IsBlank(text)
    modifies store
    ensures store.Valid()
    ensures store.messages == WithoutId(old(store.messages), tempId)
                              + [UserMessage(res.userMessage), AiMessage(res.aiMessage)]
    ensures newTopic.Some? <==> !IsTopicSelected(store.selectedTopicId)
  {
    var pending := store.BeginSend(text, tempId);
    WithoutIdAppend(old(store.messages), [ChatMessage(tempId, User, text, None)], tempId);
    newTopic := store.CompleteSend(pending.value, Ok(res));
  }
}
