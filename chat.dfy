/** The advisory chat of components/ChatInterface.tsx: a transcript of messages,
    the text being typed and a "typing" indicator. A send is split where the
    source awaits the reply: `Send` runs up to the request and `Deliver` runs
    when the reply arrives. */
module Chat {
  import opened Types
  import Text

  datatype Role = UserRole | Bot

  datatype Message = Message(role: Role, text: string)

  /** The text of the opening bot message. */
  const GreetingText: string :=
    "Namaste! I'm ReVibe, your personal e-waste consultant. How can I help you be more circular today? \U{267B}\U{FE0F}"

  /** The transcript every chat starts from, and returns to when cleared. */
  function Greeting(): (t: seq<Message>)
    ensures |t| == 1 && t[0].role == Bot && t[0].text == GreetingText
  {
    [Message(Bot, GreetingText)]
  }

  class ChatInterface {
    var messages: seq<Message>
    var input: string
    var isTyping: bool
    /** Sends whose reply has not arrived yet. */
    var awaiting: nat

    /** The transcript always opens with the greeting, and the indicator is off
        when no reply is outstanding. */
    ghost predicate Valid()
      reads this
    {
      |messages| >= 1 && messages[0] == Greeting()[0]
      && (awaiting == 0 ==> !isTyping)
    }

    constructor ()
      ensures Valid()
      ensures messages == Greeting() && input == "" && !isTyping && awaiting == 0
    {
      messages := Greeting();
      input := "";
      isTyping := false;
      awaiting := 0;
    }

    /** The input field's change handler. */
    method Type(text: string)
      requires Valid()
      modifies this
      ensures Valid()
      ensures input == text
      ensures messages == old(messages) && isTyping == old(isTyping) && awaiting == old(awaiting)
    {
      input := text;
    }

    /** `handleSend` up to the request. Blank input is ignored and nothing is sent.
        Otherwise the trimmed input is appended as a user message, the field is
        emptied, the indicator turns on, and `query` is what `getQuickAdvice`
        receives. Nothing here looks at `isTyping`: only the send button does. */
    method Send() returns (query: Option<string>)
      requires Valid()
      modifies this
      ensures Valid()
      ensures Text.IsBlank(old(input)) ==> query == None && unchanged(this)
      ensures !Text.IsBlank(old(input)) ==>
        query == Some(Text.Trim(old(input))) && query.value != ""
        && messages == old(messages) + [Message(UserRole, query.value)]
        && input == "" && isTyping && awaiting == old(awaiting) + 1
    {
      query := None;
      var trimmed := Text.Trim(input);
      if trimmed == "" {
        return;
      }
      messages := messages + [Message(UserRole, trimmed)];
      input := "";
      isTyping := true;
      awaiting := awaiting + 1;
      query := Some(trimmed);
    }

    /** The rest of `handleSend`, once the reply arrives: the reply is appended as a
        bot message to the transcript as it is by then, and the indicator turns off. */
    method Deliver(reply: string)
      requires Valid() && awaiting > 0
      modifies this
      ensures Valid()
      ensures messages == old(messages) + [Message(Bot, reply)]
      ensures !isTyping && awaiting == old(awaiting) - 1 && input == old(input)
    {
      messages := messages + [Message(Bot, reply)];
      isTyping := false;
      awaiting := awaiting - 1;
    }

    /** The clear button: the transcript becomes the greeting alone, whatever it held. */
    method Clear()
      requires Valid()
      modifies this
      ensures Valid()
      ensures messages == Greeting()
      ensures input == old(input) && isTyping == old(isTyping) && awaiting == old(awaiting)
    {
      messages := Greeting();
    }
  }

  /** One exchange on a fresh chat: the transcript is the greeting, the trimmed
      question and the reply, in that order, and the indicator is off again. */
  method Exchange(question: string, reply: string) returns (transcript: seq<Message>, typing: bool)
    ensures Text.IsBlank(question) ==> transcript == Greeting() && !typing
    ensures !Text.IsBlank(question) ==>
      transcript == Greeting() + [Message(UserRole, Text.Trim(question)), Message(Bot, reply)] && !typing
  {
    var chat := new ChatInterface();
    chat.Type(question);
    var query := chat.Send();
    if query.Some? {
      chat.Deliver(reply);
    }
    transcript, typing := chat.messages, chat.isTyping;
  }

  /** Two questions sent through the Enter key before the first reply arrives: once
      one reply is in, the indicator is off although the second reply is still
      outstanding. */
  method OverlappingSends(first: string, second: string, reply: string)
    returns (transcript: seq<Message>, typing: bool, outstanding: nat)
    requires !Text.IsBlank(first) && !Text.IsBlank(second)
    ensures !typing && outstanding == 1
    ensures transcript == Greeting() + [Message(UserRole, Text.Trim(first)),
      Message(UserRole, Text.Trim(second)), Message(Bot, reply)]
  {
    var chat := new ChatInterface();
    chat.Type(first);
    var q1 := chat.Send();
    var afterFirst := Greeting() + [Message(UserRole, Text.Trim(first))];
    assert chat.messages == afterFirst && chat.awaiting == 1;
    chat.Type(second);
    var q2 := chat.Send();
    var afterSecond := afterFirst + [Message(UserRole, Text.Trim(second))];
    assert chat.messages == afterSecond && chat.awaiting == 2;
    chat.Deliver(reply);
    assert chat.messages == afterSecond + [Message(Bot, reply)];
    transcript, typing, outstanding := chat.messages, chat.isTyping, chat.awaiting;
  }

  /** Clearing while a reply is outstanding: the late reply lands right after the
      greeting. */
  method ClearBeforeReply(question: string, reply: string) returns (transcript: seq<Message>)
    requires !Text.IsBlank(question)
    ensures transcript == Greeting() + [Message(Bot, reply)]
  {
    var chat := new ChatInterface();
    chat.Type(question);
    var q := chat.Send();
    chat.Clear();
    chat.Deliver(reply);
    transcript := chat.messages;
  }
}
