/**
 * The messaging panel (`MessagingPanel` component): which conversation is open,
 * the draft being typed, and what sending, key presses and clicks do to them.
 * The conversations and messages are fixed display data that no handler changes.
 */
module Messaging {
  import opened Wrappers
  import opened Text

  datatype Counterpart = Counterpart(name: string, online: bool)

  datatype Conversation = Conversation(
    id: string,
    supplier: Counterpart,
    lastMessage: string,
    timestamp: string,
    unread: int,
    product: Option<string>)

  datatype Sender = Buyer | SupplierSide

  datatype MessageKind = TextMessage | ImageMessage | FileMessage

  datatype Message = Message(id: string, sender: Sender, content: string, timestamp: string, kind: MessageKind)

  const Conversations: seq<Conversation> := [
    Conversation("1", Counterpart("Shenzhen Tech Manufacturing", true),
      "Yes, we can provide custom packaging for your order.", "2 min ago", 2, Some("LED Display Panel")),
    Conversation("2", Counterpart("Precision Machinery Ltd", false),
      "Please find the detailed quotation attached.", "1 hour ago", 0, Some("CNC Machining Center")),
    Conversation("3", Counterpart("Green Textiles Group", true),
      "Our minimum order quantity is 500 meters.", "3 hours ago", 1, Some("Organic Cotton Fabric"))
  ]

  const Messages: seq<Message> := [
    Message("1", Buyer, "Hello, I'm interested in your LED Display Panel. Can you provide more details about the specifications?", "10:30 AM", TextMessage),
    Message("2", SupplierSide, "Hello! Thank you for your interest. Our LED Display Panel features Full HD resolution, IP65 rating, and comes with 3-year warranty. What's your target quantity?", "10:32 AM", TextMessage),
    Message("3", Buyer, "I need about 50 units for a retail project. Can you provide custom packaging?", "10:35 AM", TextMessage),
    Message("4", SupplierSide, "Yes, we can provide custom packaging for your order. For 50 units, the price would be $140 per unit including custom packaging. Delivery time is 15-20 days.", "10:38 AM", TextMessage)
  ]

  // ---------------------------------------------------------------------------
  // Sending

  /** The guard `if (newMessage.trim())`: the draft holds something besides
      whitespace. Its negation is the send button's `disabled` flag. */
  predicate CanSend(draft: string)
    ensures CanSend(draft) <==> !IsBlank(draft)
  {
    TrimEmptyIffBlank(draft);
    Trim(draft) != ""
  }

  /** The draft after `sendMessage`: cleared when the guard passes, kept otherwise. */
  function DraftAfterSend(draft: string): (r: string)
    ensures r == "" || r == draft
    ensures !IsBlank(draft) ==> r == ""
    ensures IsBlank(draft) ==> r == draft
  {
    if CanSend(draft) then "" else draft
  }

  /** The send button is disabled exactly when sending would leave the draft as it is. */
  lemma SendDisabledIffNoOp(draft: string)
    ensures !CanSend(draft) <==> DraftAfterSend(draft) == draft
  {
    if CanSend(draft) {
      assert draft != "";
    }
  }

  /** The unread badge of a conversation row: its count when positive, none otherwise. */
  function UnreadBadge(c: Conversation): (badge: Option<int>)
    ensures badge.Some? <==> c.unread > 0
    ensures badge.Some? ==> badge.value == c.unread
  {
    if c.unread > 0 then Some(c.unread) else None
  }

  /** `!selectedConversation` in JavaScript: null and the empty id are both falsy. */
  predicate IsOpen(selected: Option<string>)
  {
    selected.Some? && selected.value != ""
  }

  /** Every conversation row carries a non-empty id, so clicking any row opens the chat. */
  lemma RowsOpenChat()
    ensures forall i :: 0 <= i < |Conversations| ==> IsOpen(Some(Conversations[i].id))
  {
  }

  /** What the panel's body shows: the conversation rows, or the chat view with its
      message thread. The thread is the same whichever conversation is selected. */
  datatype PanelView = ConversationList(rows: seq<Conversation>) | ChatView(thread: seq<Message>)

  class MessagingPanel {
    var selectedConversation: Option<string>
    var newMessage: string

    /** `useState<string | null>("1")` and `useState("")`. */
    constructor ()
      ensures selectedConversation == Some("1") && newMessage == ""
      ensures View().ChatView?
    {
      selectedConversation := Some("1");
      newMessage := "";
    }

    /** `!selectedConversation ? <conversation list> : <chat view>`. */
    function View(): (v: PanelView)
      reads this
      ensures v.ChatView? <==> IsOpen(selectedConversation)
      ensures v.ConversationList? ==> v.rows == Conversations
      ensures v.ChatView? ==> v.thread == Messages
    {
      if IsOpen(selectedConversation) then ChatView(Messages) else ConversationList(Conversations)
    }

    /** The input's `onChange`: the draft becomes what was typed. */
    method EditDraft(text: string)
      modifies this
      ensures newMessage == text
      ensures selectedConversation == old(selectedConversation)
    {
      newMessage := text;
    }

    /** `sendMessage`: a draft with something besides whitespace is logged and cleared;
        otherwise nothing happens. No message is appended anywhere. The result is the
        text written to the log, if any. */
    method SendMessage() returns (logged: Option<string>)
      modifies this
      ensures newMessage == DraftAfterSend(old(newMessage))
      ensures logged.Some? <==> CanSend(old(newMessage))
      ensures logged.Some? ==> logged.value == old(newMessage) && newMessage == ""
      ensures logged.None? ==> newMessage == old(newMessage)
      ensures selectedConversation == old(selectedConversation)
    {
      if Trim(newMessage) != "" {
        logged := Some(newMessage);
        newMessage := "";
      } else {
        logged := None;
      }
    }

    /** `handleKeyPress`: Enter without Shift sends (and the default is prevented); any
        other key leaves the state alone. The second result says whether the default
        action was prevented. */
    method HandleKeyPress(key: string, shiftKey: bool) returns (logged: Option<string>, prevented: bool)
      modifies this
      ensures prevented <==> key == "Enter" && !shiftKey
      ensures prevented ==> newMessage == DraftAfterSend(old(newMessage))
      ensures prevented ==> (logged.Some? <==> CanSend(old(newMessage)))
      ensures logged.Some? ==> logged.value == old(newMessage)
      ensures !prevented ==> newMessage == old(newMessage) && logged.None?
      ensures selectedConversation == old(selectedConversation)
    {
      if key == "Enter" && !shiftKey {
        prevented := true;
        logged := SendMessage();
      } else {
        prevented := false;
        logged := None;
      }
    }

    /** A click on a conversation row selects its id; a non-empty id opens the chat. */
    method SelectConversation(id: string)
      modifies this
      ensures selectedConversation == Some(id)
      ensures View().ChatView? <==> id != ""
      ensures newMessage == old(newMessage)
    {
      selectedConversation := Some(id);
    }

    /** The back arrow closes the conversation and shows the list. */
    method Back()
      modifies this
      ensures selectedConversation == None && View() == ConversationList(Conversations)
      ensures newMessage == old(newMessage)
    {
      selectedConversation := None;
    }
  }
}
