/** The `ChatWindow` component's input box: the send guard on the trimmed
    input, the `canSend` flag that enables the send button, and the Enter
    key rule. */
module ChatWindow {
  import opened Values
  import opened JsText

  /** `event.key === 'Enter' && !event.shiftKey`. */
  function SendsOnKey(key: string, shift: bool): (r: bool)
    ensures r <==> key == "Enter" && !shift
  {
    key == "Enter" && !shift
  }

  class ChatWindow {
    var input: string

    constructor()
      ensures input == ""
    {
      input := "";
    }

    /** `input.trim().length > 0`; the send button is disabled otherwise. */
    function CanSend(): (r: bool)
      reads this
      ensures r <==> !IsBlank(input)
    {
      |Trim(input)| > 0
    }

    /** The text field's `onChange`. */
    method Type(value: string)
      modifies this
      ensures input == value
    {
      input := value;
    }

    /** `handleSend`: when the trimmed input is not empty, hand it to
        `onSendMessage` and clear the input; otherwise do nothing. */
    method HandleSend() returns (sent: Option<string>)
      modifies this
      ensures sent.Some? <==> old(CanSend())
      ensures sent.Some? ==> sent.value == Trim(old(input)) && input == ""
      ensures sent.Some? ==> sent.value != "" && !IsSpace(sent.value[0])
                             && !IsSpace(sent.value[|sent.value| - 1])
      ensures sent.None? ==> input == old(input)
    {
      var text := Trim(input);
      if text != [] {
        sent := Some(text);
        input := "";
      } else {
        sent := None;
      }
    }

    /** `handleKeyDown`: Enter without Shift prevents the newline and sends;
        any other key is left to the text field. */
    method HandleKeyDown(key: string, shift: bool) returns (prevented: bool, sent: Option<string>)
      modifies this
      ensures prevented <==> SendsOnKey(key, shift)
      ensures !prevented ==> sent.None? && input == old(input)
      ensures prevented ==> (sent.Some? <==> old(CanSend()))
      ensures prevented && sent.Some? ==> sent.value == Trim(old(input)) && input == ""
      ensures prevented && sent.None? ==> input == old(input)
    {
      prevented := SendsOnKey(key, shift);
      sent := None;
      if prevented {
        sent := HandleSend();
      }
    }
  }
}
