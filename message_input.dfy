/** The message box component, src/components/MessageInput.tsx: a text field whose
    content is emitted trimmed, and then cleared, when it holds more than whitespace. The
    calls of the `onSendMessage` callback are recorded in the field `sent`. */
module MessageInput {
  import opened Text

  const EnterKey := "Enter"

  datatype InputState = InputState(message: string, sent: seq<string>)

  /** `handleSend`. */
  function Send(s: InputState): (s': InputState)
    ensures AllWhitespace(s.message) ==> s' == s
    ensures !AllWhitespace(s.message) ==> s'.sent == s.sent + [Trim(s.message)] && s'.message == ""
  {
    if Trim(s.message) == [] then s
    else InputState("", s.sent + [Trim(s.message)])
  }

  /** `handleKeyDown`: Enter sends, every other key does nothing here. */
  function KeyDown(s: InputState, key: string): (s': InputState)
    ensures key == EnterKey ==> s' == Send(s)
    ensures key != EnterKey ==> s' == s
  {
    if key == EnterKey then Send(s) else s
  }

  /** What is emitted is the typed text without its surrounding whitespace: not empty, not
      starting or ending with whitespace, and a slice of the typed text. */
  lemma EmittedTextIsTrimmed(s: InputState)
    requires !AllWhitespace(s.message)
    ensures var e := Send(s).sent[|s.sent|];
      && e != [] && !IsWhitespace(e[0]) && !IsWhitespace(e[|e| - 1])
      && exists k :: IsTrimSlice(s.message, e, k)
  {
    TrimIsSlice(s.message);
  }

  /** Right after a send the field is empty, so pressing send again emits nothing. */
  lemma SecondSendEmitsNothing(s: InputState)
    ensures Send(Send(s)) == Send(s)
  {
  }

  class MessageInputBox {
    var message: string
    /** The texts passed to `onSendMessage`, oldest first. */
    var sent: seq<string>

    function State(): InputState
      reads this
    {
      InputState(message, sent)
    }

    constructor ()
      ensures message == "" && sent == []
    {
      message := "";
      sent := [];
    }

    /** `onChange`. */
    method Change(text: string)
      modifies this
      ensures message == text && sent == old(sent)
    {
      message := text;
    }

    method HandleSend()
      modifies this
      ensures State() == Send(old(State()))
      ensures AllWhitespace(old(message)) ==> message == old(message) && sent == old(sent)
      ensures !AllWhitespace(old(message)) ==> sent == old(sent) + [Trim(old(message))] && message == ""
    {
      if Trim(message) == [] {
        return;
      }
      sent := sent + [Trim(message)];
      message := "";
    }

    method HandleKeyDown(key: string)
      modifies this
      ensures State() == KeyDown(old(State()), key)
    {
      if key == EnterKey {
        HandleSend();
      }
    }
  }
}
