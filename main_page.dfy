/** The earliest chat page (chat_page/mainpage.tsx): a seeded list, a send
    that appends the user's message, and a canned bot reply appended later. */
module MainPage {
  import opened JsText

  datatype Sender = User | Bot
  datatype Message = Message(sender: Sender, text: string)

  const Seed: seq<Message> := [
    Message(Bot, "Xin chào! Tôi là chatbot tư vấn tuyển sinh của Đại học Kinh tế TP.HCM (UEH)."),
    Message(User, "nhiều điểm tốt nghiệp là tối thiểu"),
    Message(Bot, "Hiện tại, tôi không tìm thấy thông tin cụ thể về điểm tốt nghiệp tối thiểu...")
  ]

  const ReplyText := "Xin lỗi, tôi chưa có thông tin về điều đó."

  class MainPage {
    var messages: seq<Message>
    var input: string

    constructor()
      ensures messages == Seed && input == ""
      ensures |messages| == 3 && messages[0].sender == Bot && messages[1].sender == User
              && messages[2].sender == Bot
    {
      messages := Seed;
      input := "";
    }

    /** The input's `onChange`. */
    method Type(value: string)
      modifies this
      ensures input == value && messages == old(messages)
    {
      input := value;
    }

    /** `sendMessage`: blank input does nothing; otherwise the user's
        message is appended, the input cleared and the reply scheduled. */
    method SendMessage() returns (replyScheduled: bool)
      modifies this
      ensures replyScheduled <==> !IsBlank(old(input))
      ensures !replyScheduled ==> messages == old(messages) && input == old(input)
      ensures replyScheduled ==> messages == old(messages) + [Message(User, old(input))] && input == ""
    {
      if Trim(input) == [] {
        return false;
      }
      messages := messages + [Message(User, input)];
      input := "";
      replyScheduled := true;
    }

    /** `e.key === 'Enter' && sendMessage()`: Enter sends, with or without
        Shift. */
    method HandleKeyDown(key: string) returns (replyScheduled: bool)
      modifies this
      ensures key != "Enter" ==> !replyScheduled && messages == old(messages) && input == old(input)
      ensures key == "Enter" ==> (replyScheduled <==> !IsBlank(old(input)))
      ensures key == "Enter" && !replyScheduled ==> messages == old(messages) && input == old(input)
      ensures key == "Enter" && replyScheduled ==>
                messages == old(messages) + [Message(User, old(input))] && input == ""
    {
      replyScheduled := false;
      if key == "Enter" {
        replyScheduled := SendMessage();
      }
    }

    /** The scheduled reply: one bot message at the end, nothing else
        changes. */
    method DeliverReply()
      modifies this
      ensures messages == old(messages) + [Message(Bot, ReplyText)] && input == old(input)
    {
      messages := messages + [Message(Bot, ReplyText)];
    }
  }
}
