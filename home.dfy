/** The `Home` page: the selected topic, the topic list, the drawer flag,
    and the handlers that connect them to the message hook. The hook is a
    field; `Rerender` stands for the render that passes the new
    `selectedTopic?.id || null` to the hook and the hook's topic effect
    that follows when that value changed. */
module Home {
  import opened Values
  import opened UseMessage
  import opened JsText
  import UseAuthentication
  import ChatWindow

  /** `selectedTopic?.id || null`: no topic and a topic whose id is 0 both
      give null. */
  function HookTopicId(selected: Option<Topic>): (r: Option<int>)
    ensures r.Some? <==> selected.Some? && selected.value.id != 0
    ensures r.Some? ==> r.value == selected.value.id
  {
    if selected.Some? && selected.value.id != 0 then Some(selected.value.id) else None
  }

  /** A topic created by a send whose response has no `topicId` is given id
      0, and selecting it hands the hook null: the hook still has no topic,
      so the next successful send reports yet another new topic. */
  lemma CreatedTopicWithoutIdIsNoTopic(u: ServerMessage)
    requires u.topicId.None?
    ensures HookTopicId(Some(NewTopic(u))) == None
    ensures !IsTopicSelected(HookTopicId(Some(NewTopic(u))))
  {
  }

  class HomePage {
    var selectedTopic: Option<Topic>
    var topics: seq<Topic>
    var drawerOpen: bool
    /** The paths passed to `navigate`, oldest first. */
    var navigations: seq<string>
    const chat: MessageStore
    const auth: UseAuthentication.AuthHook

    ghost predicate Valid()
      reads this, chat
    {
      chat.Valid() && chat.selectedTopicId == HookTopicId(selectedTopic)
    }

    /** Mounting the page with the topics `useTopic` loaded and a fresh
        message hook. */
    constructor(loaded: seq<Topic>, chat: MessageStore, auth: UseAuthentication.AuthHook)
      requires chat.Valid() && chat.selectedTopicId == None
      ensures Valid()
      ensures selectedTopic == None && topics == loaded && !drawerOpen && navigations == []
      ensures this.chat == chat && this.auth == auth
    {
      selectedTopic := None;
      topics := loaded;
      drawerOpen := false;
      navigations := [];
      this.chat := chat;
      this.auth := auth;
    }

    /** The render after a state change, and the hook's topic effect when
        the id it receives changed. */
    method Rerender() returns (fetchFirst: bool)
      requires chat.Valid()
      modifies chat
      ensures Valid()
      ensures old(chat.selectedTopicId) == HookTopicId(selectedTopic) ==>
                !fetchFirst && chat.messages == old(chat.messages)
                && chat.page == old(chat.page) && chat.hasMore == old(chat.hasMore)
                && chat.justOpenedTopic == old(chat.justOpenedTopic)
      ensures old(chat.selectedTopicId) != HookTopicId(selectedTopic) ==>
                (fetchFirst <==> IsTopicSelected(HookTopicId(selectedTopic)))
                && chat.messages == [] && chat.page == 1 && chat.hasMore
                && chat.justOpenedTopic == (fetchFirst || old(chat.justOpenedTopic))
    {
      fetchFirst := false;
      var id := HookTopicId(selectedTopic);
      if id != chat.selectedTopicId {
        fetchFirst := chat.ChangeTopic(id);
      }
    }

    /** `onNewTopicCreated`: the new topic becomes the selected one and goes
        in front of the topic list. */
    method OnNewTopicCreated(t: Topic)
      modifies this`selectedTopic, this`topics
      ensures selectedTopic == Some(t) && topics == [t] + old(topics)
    {
      selectedTopic := Some(t);
      topics := [t] + topics;
    }

    /** Choosing a topic in the sidebar. */
    method SelectFromSidebar(t: Topic) returns (fetchFirst: bool)
      requires Valid()
      modifies this`selectedTopic, chat
      ensures Valid()
      ensures selectedTopic == Some(t) && drawerOpen == old(drawerOpen) && topics == old(topics)
      ensures chat.selectedTopicId == HookTopicId(Some(t))
      ensures old(chat.selectedTopicId) == HookTopicId(Some(t)) ==>
                !fetchFirst && chat.messages == old(chat.messages)
                && chat.page == old(chat.page) && chat.hasMore == old(chat.hasMore)
                && chat.justOpenedTopic == old(chat.justOpenedTopic)
      ensures old(chat.selectedTopicId) != HookTopicId(Some(t)) ==>
                (fetchFirst <==> t.id != 0)
                && chat.messages == [] && chat.page == 1 && chat.hasMore
                && chat.justOpenedTopic == (fetchFirst || old(chat.justOpenedTopic))
    {
      selectedTopic := Some(t);
      fetchFirst := Rerender();
    }

    /** Choosing a topic in the drawer also closes the drawer. */
    method SelectFromDrawer(t: Topic) returns (fetchFirst: bool)
      requires Valid()
      modifies this`selectedTopic, this`drawerOpen, chat
      ensures Valid()
      ensures selectedTopic == Some(t) && !drawerOpen && topics == old(topics)
      ensures chat.selectedTopicId == HookTopicId(Some(t))
      ensures old(chat.selectedTopicId) == HookTopicId(Some(t)) ==>
                !fetchFirst && chat.messages == old(chat.messages)
                && chat.page == old(chat.page) && chat.hasMore == old(chat.hasMore)
                && chat.justOpenedTopic == old(chat.justOpenedTopic)
      ensures old(chat.selectedTopicId) != HookTopicId(Some(t)) ==>
                (fetchFirst <==> t.id != 0)
                && chat.messages == [] && chat.page == 1 && chat.hasMore
                && chat.justOpenedTopic == (fetchFirst || old(chat.justOpenedTopic))
    {
      selectedTopic := Some(t);
      drawerOpen := false;
      fetchFirst := Rerender();
    }

    method OpenDrawer()
      modifies this`drawerOpen
      ensures drawerOpen
    {
      drawerOpen := true;
    }

    method CloseDrawer()
      modifies this`drawerOpen
      ensures !drawerOpen
    {
      drawerOpen := false;
    }

    /** `onNewTopic`: no topic is selected and the list is empty. */
    method OnNewTopic()
      requires Valid()
      modifies this`selectedTopic, chat
      ensures Valid()
      ensures selectedTopic == None && chat.messages == [] && topics == old(topics)
      ensures chat.selectedTopicId == None
      ensures chat.justOpenedTopic == old(chat.justOpenedTopic)
      ensures old(chat.selectedTopicId) != None ==> chat.page == 1 && chat.hasMore
      ensures old(chat.selectedTopicId) == None ==>
                chat.page == old(chat.page) && chat.hasMore == old(chat.hasMore)
    {
      selectedTopic := None;
      chat.SetMessages([]);
      var fetchFirst := Rerender();
    }

    /** The chat window's send: the hook's `sendMessage` up to its request. */
    method Send(text: string, tempId: int) returns (pending: Option<PendingSend>)
      requires Valid()
      modifies chat
      ensures Valid()
      ensures chat.selectedTopicId == old(chat.selectedTopicId)
      ensures chat.page == old(chat.page) && chat.hasMore == old(chat.hasMore)
      ensures chat.justOpenedTopic == old(chat.justOpenedTopic)
      ensures IsBlank(text) ==> pending == None && chat.messages == old(chat.messages)
      ensures !IsBlank(text) ==> pending == Some(PendingSend(tempId, text, HookTopicId(selectedTopic)))
                                 && chat.messages == old(chat.messages) + [ChatMessage(tempId, User, text, None)]
    {
      pending := chat.BeginSend(text, tempId);
    }

    /** The chat window's send wired to the hook's `sendMessage`: the
        window hands over the trimmed input, which the hook's own blank
        check then always lets through. */
    method SendFromWindow(window: ChatWindow.ChatWindow, tempId: int) returns (pending: Option<PendingSend>)
      requires Valid()
      modifies window, chat
      ensures Valid()
      ensures chat.selectedTopicId == old(chat.selectedTopicId)
      ensures chat.page == old(chat.page) && chat.hasMore == old(chat.hasMore)
      ensures chat.justOpenedTopic == old(chat.justOpenedTopic)
      ensures pending.Some? <==> !IsBlank(old(window.input))
      ensures pending.Some? ==>
                pending.value == PendingSend(tempId, Trim(old(window.input)), HookTopicId(selectedTopic))
                && chat.messages == old(chat.messages) + [ChatMessage(tempId, User, Trim(old(window.input)), None)]
                && window.input == ""
      ensures pending.None? ==> chat.messages == old(chat.messages) && window.input == old(window.input)
    {
      var sent := window.HandleSend();
      pending := None;
      if sent.Some? {
        assert !IsBlank(sent.value) by {
          assert !IsSpace(sent.value[0]);
        }
        pending := Send(sent.value, tempId);
      }
    }

    /** The rest of `sendMessage`, the `onNewTopicCreated` call it may make,
        and the render that follows. When a topic with a non-zero id was
        created the hook switches to it, which empties the list and requests
        its first page. */
    method SendSettled(p: PendingSend, outcome: Outcome<CreateResponse>) returns (fetchFirst: bool)
      requires Valid()
      modifies this`selectedTopic, this`topics, chat
      ensures Valid()
      ensures outcome.Ok? && !IsTopicSelected(p.topic) ==>
                var t := NewTopic(outcome.value.userMessage);
                selectedTopic == Some(t) && topics == [t] + old(topics)
      ensures outcome.Failed? || IsTopicSelected(p.topic) ==>
                selectedTopic == old(selectedTopic) && topics == old(topics)
      ensures outcome.Failed? ==>
                !fetchFirst && chat.selectedTopicId == old(chat.selectedTopicId)
                && chat.page == old(chat.page) && chat.hasMore == old(chat.hasMore)
                && chat.justOpenedTopic == old(chat.justOpenedTopic)
                && chat.messages == WithoutId(old(chat.messages), p.tempId)
      ensures outcome.Ok? && IsTopicSelected(p.topic) ==>
                !fetchFirst && chat.selectedTopicId == old(chat.selectedTopicId)
                && chat.page == old(chat.page) && chat.hasMore == old(chat.hasMore)
                && chat.justOpenedTopic == old(chat.justOpenedTopic)
                && chat.messages == WithoutId(old(chat.messages), p.tempId)
                   + [UserMessage(outcome.value.userMessage), AiMessage(outcome.value.aiMessage)]
      ensures outcome.Ok? && !IsTopicSelected(p.topic) ==>
                var h := HookTopicId(Some(NewTopic(outcome.value.userMessage)));
                chat.selectedTopicId == h
                && (h == old(chat.selectedTopicId) ==>
                      !fetchFirst && chat.page == old(chat.page) && chat.hasMore == old(chat.hasMore)
                      && chat.justOpenedTopic == old(chat.justOpenedTopic)
                      && chat.messages == WithoutId(old(chat.messages), p.tempId)
                         + [UserMessage(outcome.value.userMessage), AiMessage(outcome.value.aiMessage)])
                && (h != old(chat.selectedTopicId) ==>
                      (fetchFirst <==> IsTopicSelected(h)) && chat.messages == [] && chat.page == 1 && chat.hasMore
                      && chat.justOpenedTopic == (fetchFirst || old(chat.justOpenedTopic)))
    {
      var newTopic := chat.CompleteSend(p, outcome);
      if newTopic.Some? {
        OnNewTopicCreated(newTopic.value);
      }
      fetchFirst := Rerender();
    }

    /** `handleLogout` once `logoutUser` has settled: go to the login page
        only when it returned a response. */
    method HandleLogout(outcome: Outcome<UseAuthentication.LogoutResponse>)
      modifies this`navigations, auth
      ensures auth.accessToken == None && !auth.isLoading
      ensures auth.error == (if outcome.Ok? then None else Some(UseAuthentication.LogoutFailed))
      ensures navigations == old(navigations) + (if outcome.Ok? then ["/login"] else [])
    {
      auth.BeginLogout();
      var response := auth.SettleLogout(outcome);
      if response.Some? {
        navigations := navigations + ["/login"];
      }
    }
  }
}
