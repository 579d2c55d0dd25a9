/**
 * The chatbot widget: an open flag, the text being typed, and a conversation that
 * starts with the bot's welcome and only ever grows. The bot's delayed answer is a
 * separate step, `DeliverReply`, that can happen once per message sent.
 * Translated texts are kept as their translation keys.
 */
module AIChatbot {

  datatype Sender = User | Bot

  datatype Message = Message(sender: Sender, text: string)

  const Welcome := Message(Bot, "chatbot.welcome")
  const Reply := Message(Bot, "chatbot.response")

  datatype QuickAction = QuickAction(id: nat, text: string, icon: string)

  const QuickActions: seq<QuickAction> := [
    QuickAction(1, "chatbot.q1", "\U{1F4DA}"),
    QuickAction(2, "chatbot.q2", "\U{1F4C5}"),
    QuickAction(3, "chatbot.q3", "\U{1F4B0}"),
    QuickAction(4, "chatbot.q4", "\U{1F4DE}")
  ]

  // ---- String.prototype.trim ----

  /** ECMAScript WhiteSpace and LineTerminator code points, which `trim` removes. */
  predicate IsWhitespace(c: char) {
    c in {'\U{9}', '\U{A}', '\U{B}', '\U{C}', '\U{D}', '\U{20}', '\U{A0}', '\U{1680}',
          '\U{2000}', '\U{2001}', '\U{2002}', '\U{2003}', '\U{2004}', '\U{2005}', '\U{2006}', '\U{2007}',
          '\U{2008}', '\U{2009}', '\U{200A}', '\U{2028}', '\U{2029}', '\U{202F}', '\U{205F}', '\U{3000}',
          '\U{FEFF}'}
  }

  /** Drops leading whitespace: what is dropped is all whitespace, and what is left does not start with it. */
  function TrimStart(s: string): (r: string)
    ensures |r| <= |s| && r == s[|s| - |r|..]
    ensures forall i :: 0 <= i < |s| - |r| ==> IsWhitespace(s[i])
    ensures r != [] ==> !IsWhitespace(r[0])
  {
    if s != [] && IsWhitespace(s[0]) then TrimStart(s[1..]) else s
  }

  /** Drops trailing whitespace: what is dropped is all whitespace, and what is left does not end with it. */
  function TrimEnd(s: string): (r: string)
    ensures |r| <= |s| && r == s[..|r|]
    ensures forall i :: |r| <= i < |s| ==> IsWhitespace(s[i])
    ensures r != [] ==> !IsWhitespace(r[|r| - 1])
  {
    if s != [] && IsWhitespace(s[|s| - 1]) then TrimEnd(s[..|s| - 1]) else s
  }

  function Trim(s: string): string {
    TrimEnd(TrimStart(s))
  }

  /** `!input.trim()`: the trimmed text is empty. */
  predicate IsBlank(s: string) {
    Trim(s) == ""
  }

  /** A text is blank exactly when every character of it is whitespace. */
  lemma BlankIffAllWhitespace(s: string)
    ensures IsBlank(s) <==> forall i :: 0 <= i < |s| ==> IsWhitespace(s[i])
  {
  }

  // ---- The widget ----

  class Chatbot {
    var isOpen: bool
    var messages: seq<Message>
    var input: string
    /** Bot answers scheduled by `handleSend` and not yet delivered. */
    var pendingReplies: nat

    /** The welcome message stays first. */
    ghost predicate Valid()
      reads this
    {
      |messages| >= 1 && messages[0] == Welcome
    }

    constructor ()
      ensures Valid()
      ensures !isOpen && messages == [Welcome] && input == "" && pendingReplies == 0
    {
      isOpen := false;
      messages := [Welcome];
      input := "";
      pendingReplies := 0;
    }

    /** The input's `onChange`. */
    method SetInput(text: string)
      requires Valid()
      modifies this`input
      ensures Valid() && input == text
    {
      input := text;
    }

    /** `handleSend`; `sent` says whether it did anything. */
    method HandleSend() returns (sent: bool)
      requires Valid()
      modifies this`messages, this`input, this`pendingReplies
      ensures Valid()
      ensures sent <==> !IsBlank(old(input))
      ensures !sent ==> messages == old(messages) && input == old(input) && pendingReplies == old(pendingReplies)
      ensures sent ==> messages == old(messages) + [Message(User, old(input))]
      ensures sent ==> input == "" && pendingReplies == old(pendingReplies) + 1
      ensures sent ==> !QuickActionsShown()
    {
      var text := input;
      sent := !IsBlank(text);
      if sent {
        messages := messages + [Message(User, text)];
        pendingReplies := pendingReplies + 1;
        input := "";
      }
    }

    /** The input's `onKeyPress`: Enter sends. */
    method KeyPress(key: string)
      requires Valid()
      modifies this`messages, this`input, this`pendingReplies
      ensures Valid()
      ensures key != "Enter" ==>
        messages == old(messages) && input == old(input) && pendingReplies == old(pendingReplies)
      ensures key == "Enter" && IsBlank(old(input)) ==>
        messages == old(messages) && input == old(input) && pendingReplies == old(pendingReplies)
      ensures key == "Enter" && !IsBlank(old(input)) ==>
        messages == old(messages) + [Message(User, old(input))] && input == "" &&
        pendingReplies == old(pendingReplies) + 1
      ensures old(messages) <= messages
    {
      if key == "Enter" {
        var _ := HandleSend();
      }
    }

    /** The timeout scheduled by `handleSend` fires: the bot's answer goes at the end of the current list. */
    method DeliverReply()
      requires Valid() && pendingReplies > 0
      modifies this`messages, this`pendingReplies
      ensures Valid()
      ensures messages == old(messages) + [Reply]
      ensures old(messages) < messages
      ensures pendingReplies == old(pendingReplies) - 1
    {
      messages := messages + [Reply];
      pendingReplies := pendingReplies - 1;
    }

    /** The quick actions are offered exactly while the conversation is only the welcome. */
    function QuickActionsShown(): (shown: bool)
      reads this
      requires Valid()
      ensures shown <==> isOpen && messages == [Welcome]
    {
      isOpen && |messages| == 1
    }

    /** A quick action fills the input without sending it. */
    method ChooseQuickAction(k: nat)
      requires Valid() && QuickActionsShown() && k < |QuickActions|
      modifies this`input
      ensures Valid() && input == QuickActions[k].text
    {
      input := QuickActions[k].text;
    }

    /** The floating toggle button. */
    method Toggle()
      requires Valid()
      modifies this`isOpen
      ensures Valid() && isOpen == !old(isOpen)
    {
      isOpen := !isOpen;
    }

    /** The close button in the window's header. */
    method Close()
      requires Valid()
      modifies this`isOpen
      ensures Valid() && !isOpen
    {
      isOpen := false;
    }
  }
}
