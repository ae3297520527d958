/** The older `ChatPage` (chat_page/chat.tsx): its message list with the
    "typing" placeholder that the reply or an error text later overwrites,
    and the redirect when the route has no user name. */
module ChatPage {
  import opened Values
  import opened JsText
  import HandleErrors
  import ChatWindow

  datatype Sender = User | Bot
  datatype Message = Message(sender: Sender, text: string, createdAt: Option<string>)
  datatype Topic = Topic(id: int, title: string)

  /** The create-message request `handleSend` makes. */
  datatype CreateRequest = CreateRequest(topicId: int, content: string, sender: string)

  const TypingText := "Assistant is typing"
  const Greeting := "Hallo, ich komme von der Vietnam-Deutschland-Universität. Ich unterstütze Sie bei Ihrer Zulassung."
  const SettingsText := "Go to Settings"
  const SendFailedText := "Fehler beim Senden der Nachricht. Bitte versuchen Sie es erneut."

  /** `updated[updated.length - 1] = m` on a copy: the last element is
      replaced. On an empty array JavaScript stores a property named "-1",
      which leaves the elements as they were. */
  function OverwriteLast(s: seq<Message>, m: Message): (r: seq<Message>)
    ensures |r| == |s|
    ensures |s| > 0 ==> r[|s| - 1] == m && r[..|s| - 1] == s[..|s| - 1]
    ensures |s| == 0 ==> r == s
  {
    if |s| == 0 then s else s[..|s| - 1] + [m]
  }

  /** `!username || username.trim() === ''`. */
  function RedirectsToLogin(username: Option<string>): (r: bool)
    ensures r <==> username.None? || IsBlank(username.value)
  {
    username.None? || Trim(username.value) == ""
  }

  class ChatPage {
    var topics: seq<Topic>
    var messages: seq<Message>
    var input: string
    /** The paths passed to `navigate`, oldest first. */
    var navigations: seq<string>
    /** The texts passed to `alert`, oldest first. */
    var alerts: seq<string>

    /** Mounting the page for the route parameter `username`; the effect
        sends a missing or blank name to the login page. */
    constructor(username: Option<string>)
      ensures topics == [] && messages == [] && input == "" && alerts == []
      ensures navigations == (if RedirectsToLogin(username) then ["/login"] else [])
    {
      topics, messages, input, alerts := [], [], "", [];
      navigations := if RedirectsToLogin(username) then ["/login"] else [];
    }

    /** The mount effect once `fetchTopics` has settled: the list is
        replaced on success and kept (empty) on failure. */
    method TopicsLoaded(outcome: Outcome<seq<Topic>>)
      modifies this`topics
      ensures topics == (if outcome.Ok? then outcome.value else old(topics))
    {
      if outcome.Ok? {
        topics := outcome.value;
      }
    }

    /** `handleSettings`. */
    method HandleSettings()
      modifies this`alerts
      ensures alerts == old(alerts) + [SettingsText]
    {
      alerts := alerts + [SettingsText];
    }

    /** `handleLogout`: the login page comes first, before `logout` is even
        called, so the outcome of the call changes nothing on the page.
        The navigation replaces the history entry; `navigations` records it
        like any other. */
    method HandleLogout()
      modifies this`navigations
      ensures navigations == old(navigations) + ["/login"]
    {
      navigations := navigations + ["/login"];
    }

    /** The textarea's `onChange`. */
    method Type(value: string)
      modifies this`input
      ensures input == value
    {
      input := value;
    }

    /** `handleSend` up to the request: blank input does nothing; otherwise
        the user's message and the typing placeholder are appended, the
        input is cleared, and the request goes to topic 1 as the user. */
    method HandleSend(now: string) returns (request: Option<CreateRequest>)
      modifies this`messages, this`input
      ensures IsBlank(old(input)) ==>
                request == None && messages == old(messages) && input == old(input)
      ensures !IsBlank(old(input)) ==>
                request == Some(CreateRequest(1, old(input), "user"))
                && messages == old(messages) + [Message(User, old(input), Some(now)),
                                                Message(Bot, TypingText, None)]
                && input == ""
    {
      if Trim(input) == [] {
        return None;
      }
      var text := input;
      messages := messages + [Message(User, text, Some(now)), Message(Bot, TypingText, None)];
      input := "";
      request := Some(CreateRequest(1, text, "user"));
    }

    /** The textarea's `onKeyDown`: Enter without Shift sends. */
    method HandleKeyDown(key: string, shift: bool, now: string) returns (request: Option<CreateRequest>)
      modifies this`messages, this`input
      ensures !ChatWindow.SendsOnKey(key, shift) ==>
                request == None && messages == old(messages) && input == old(input)
      ensures ChatWindow.SendsOnKey(key, shift) && IsBlank(old(input)) ==>
                request == None && messages == old(messages) && input == old(input)
      ensures ChatWindow.SendsOnKey(key, shift) && !IsBlank(old(input)) ==>
                request == Some(CreateRequest(1, old(input), "user"))
                && messages == old(messages) + [Message(User, old(input), Some(now)),
                                                Message(Bot, TypingText, None)]
                && input == ""
    {
      request := None;
      if ChatWindow.SendsOnKey(key, shift) {
        request := HandleSend(now);
      }
    }

    /** The timer that follows a successful request: the last message
        becomes the fixed greeting. */
    method ReplyArrived(now: string)
      modifies this`messages
      ensures messages == OverwriteLast(old(messages), Message(Bot, Greeting, Some(now)))
    {
      messages := OverwriteLast(messages, Message(Bot, Greeting, Some(now)));
    }

    /** A failed request: the error is reported in the `message` context and
        the last message becomes the fixed error text. */
    method SendFailed(e: HandleErrors.Thrown, now: string)
      modifies this`messages, this`alerts
      ensures alerts == old(alerts) + [HandleErrors.HandleErrors(e, HandleErrors.Message).alert]
      ensures messages == OverwriteLast(old(messages), Message(Bot, SendFailedText, Some(now)))
    {
      var report := HandleErrors.HandleErrors(e, HandleErrors.Message);
      alerts := alerts + [report.alert];
      messages := OverwriteLast(messages, Message(Bot, SendFailedText, Some(now)));
    }
  }

  /** A send followed by its reply leaves the earlier messages, then the
      user's message, then the greeting in place of the placeholder. */
  method SendThenReply(page: ChatPage, sentAt: string, repliedAt: string)
    requires !IsBlank(page.input)
    modifies page
    ensures page.messages == old(page.messages) + [Message(User, old(page.input), Some(sentAt)),
                                                   Message(Bot, Greeting, Some(repliedAt))]
  {
    var request := page.HandleSend(sentAt);
    page.ReplyArrived(repliedAt);
    assert page.messages[..|page.messages| - 1] == old(page.messages) + [Message(User, old(page.input), Some(sentAt))];
  }
}
