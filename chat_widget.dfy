/** The chat widget: an append-only transcript seeded with a bot greeting, a
    send handler that appends the visitor's message and schedules one canned
    reply, and the launcher's open flag and pulse. The 1000 ms reply timer is
    the event `DeliverReply`; since every reply waits the same time, the
    scheduled replies fire in the order they were sent and are kept as a FIFO
    of texts fixed at send time. `Math.random` is the caller's `choice`. */
module ChatWidget {
  import opened Text

  datatype Sender = User | Bot

  datatype Message = Message(id: int, text: string, sender: Sender)

  /** The transcript's only message before the first send. */
  const Greeting := Message(1, "Hi there! How can I help you with selling your software licenses?", Bot)

  const BotResponses: seq<string> := [
    "Great question! We support licenses from major vendors like Microsoft, Adobe, and Oracle.",
    "Our valuation process is quick and transparent. We'll provide a quote within minutes.",
    "Yes, we handle bulk license sales for businesses of all sizes.",
    "Our team specializes in getting the maximum value for your unused software licenses."
  ]

  /** `Math.floor(Math.random() * botResponses.length)`: an index below 4. */
  type ReplyIndex = i: nat | i < 4

  /** The canned reply chosen by `choice`: always one of the catalog's
      entries. */
  function PickReply(choice: ReplyIndex): (r: string)
    ensures r in BotResponses
  {
    BotResponses[choice]
  }

  /** Every catalog entry is picked by some index, so none is unreachable. */
  lemma EveryReplyReachable(r: string)
    requires r in BotResponses
    ensures exists choice: ReplyIndex :: PickReply(choice) == r
  {
    var k :| 0 <= k < |BotResponses| && BotResponses[k] == r;
    assert PickReply(k) == r;
  }

  /** The id each position of the transcript gets: the greeting is 1, a user
      message appended at index k gets k + 1 and a bot reply appended at
      index k gets k + 2. */
  ghost predicate WellNumbered(ms: seq<Message>) {
    forall k :: 1 <= k < |ms| ==> ms[k].id == k + (if ms[k].sender == User then 1 else 2)
  }

  predicate HasUserMessage(ms: seq<Message>) {
    exists m :: m in ms && m.sender == User
  }

  /** Ids are not unique: a bot reply followed directly by a user message
      share an id. */
  lemma ReplyThenSendShareId(ms: seq<Message>, k: int)
    requires WellNumbered(ms)
    requires 1 <= k && k + 1 < |ms| && ms[k].sender == Bot && ms[k + 1].sender == User
    ensures ms[k].id == ms[k + 1].id == k + 2
  {
  }

  /** Once the transcript holds a user message, every extension of it does. */
  lemma UserMessagePersists(ms: seq<Message>, extra: seq<Message>)
    requires HasUserMessage(ms)
    ensures HasUserMessage(ms + extra)
  {
    var m :| m in ms && m.sender == User;
    assert m in ms + extra;
  }

  /** The launcher's pulse condition, for an open flag and a transcript. */
  predicate Pulses(isOpen: bool, ms: seq<Message>) {
    !isOpen && !HasUserMessage(ms)
  }

  /** Once the visitor has sent a message the pulse is off for good: every
      operation only appends to the transcript, and whatever the open flag
      becomes, the extended transcript still holds the user message. */
  lemma PulseStaysOffOnceSent(ms: seq<Message>, extra: seq<Message>, isOpen: bool)
    requires HasUserMessage(ms)
    ensures !Pulses(isOpen, ms + extra)
  {
    UserMessagePersists(ms, extra);
  }

  /** The transcript starts with the greeting and is numbered by position;
      user messages are never blank; every later bot message is a catalog
      entry. */
  ghost predicate TranscriptValid(ms: seq<Message>) {
    && |ms| >= 1 && ms[0] == Greeting
    && WellNumbered(ms)
    && (forall k :: 0 <= k < |ms| && ms[k].sender == User ==> !IsBlank(ms[k].text))
    && (forall k :: 1 <= k < |ms| && ms[k].sender == Bot ==> ms[k].text in BotResponses)
  }

  /** Appending a non-blank user message numbered one past the length keeps
      the transcript well formed. */
  lemma AppendUserKeepsTranscriptValid(ms: seq<Message>, text: string)
    requires TranscriptValid(ms) && !IsBlank(text)
    ensures TranscriptValid(ms + [Message(|ms| + 1, text, User)])
  {
    var ms' := ms + [Message(|ms| + 1, text, User)];
    forall k | 0 <= k < |ms| ensures ms'[k] == ms[k] { }
  }

  /** Appending a catalog reply numbered two past the length keeps the
      transcript well formed. */
  lemma AppendBotKeepsTranscriptValid(ms: seq<Message>, reply: string)
    requires TranscriptValid(ms) && reply in BotResponses
    ensures TranscriptValid(ms + [Message(|ms| + 2, reply, Bot)])
  {
    var ms' := ms + [Message(|ms| + 2, reply, Bot)];
    forall k | 0 <= k < |ms| ensures ms'[k] == ms[k] { }
  }

  class ChatWidget {
    var isOpen: bool
    /** The text in the input box (the component's `message` state). */
    var input: string
    var messages: seq<Message>
    var isTyping: bool
    /** Replies scheduled and not yet delivered, oldest first. */
    var pending: seq<string>

    /** The transcript is well formed, every pending reply is a catalog
        entry, and the typing indicator is on only while a reply is pending. */
    ghost predicate Valid()
      reads this
    {
      && TranscriptValid(messages)
      && (forall k :: 0 <= k < |pending| ==> pending[k] in BotResponses)
      && (isTyping ==> pending != [])
    }

    constructor ()
      ensures Valid()
      ensures messages == [Greeting]
      ensures !isOpen && input == "" && !isTyping && pending == []
    {
      isOpen := false;
      input := "";
      messages := [Greeting];
      isTyping := false;
      pending := [];
    }

    /** The input box's change handler. */
    method SetInput(text: string)
      requires Valid()
      modifies this
      ensures Valid()
      ensures input == text
      ensures messages == old(messages) && isTyping == old(isTyping) && pending == old(pending)
      ensures isOpen == old(isOpen)
    {
      input := text;
    }

    /** `handleSendMessage`: blank input is ignored. Otherwise the input,
        untrimmed, is appended as a user message numbered one past the old
        length, the input is cleared, the typing indicator turns on and the
        reply picked by `choice` is scheduled. */
    method HandleSendMessage(choice: ReplyIndex)
      requires Valid()
      modifies this
      ensures Valid()
      ensures IsBlank(old(input)) ==>
        && messages == old(messages) && input == old(input)
        && isTyping == old(isTyping) && pending == old(pending)
      ensures !IsBlank(old(input)) ==>
        && messages == old(messages) + [Message(|old(messages)| + 1, old(input), User)]
        && input == "" && isTyping
        && pending == old(pending) + [PickReply(choice)]
      ensures isOpen == old(isOpen)
    {
      if IsBlank(input) {
        return;
      }
      AppendUserKeepsTranscriptValid(messages, input);
      messages := messages + [Message(|messages| + 1, input, User)];
      input := "";
      isTyping := true;
      pending := pending + [PickReply(choice)];
    }

    /** The reply timer fires: the oldest scheduled reply is appended as a bot
        message numbered two past the length before it, and the typing
        indicator turns off even if another reply is still pending. */
    method DeliverReply()
      requires Valid()
      requires pending != []
      modifies this
      ensures Valid()
      ensures messages == old(messages) + [Message(|old(messages)| + 2, old(pending)[0], Bot)]
      ensures pending == old(pending)[1..]
      ensures !isTyping
      ensures input == old(input) && isOpen == old(isOpen)
    {
      AppendBotKeepsTranscriptValid(messages, pending[0]);
      messages := messages + [Message(|messages| + 2, pending[0], Bot)];
      pending := pending[1..];
      isTyping := false;
    }

    /** The launcher's click handler. */
    method ToggleOpen()
      requires Valid()
      modifies this
      ensures Valid()
      ensures isOpen == !old(isOpen)
      ensures messages == old(messages) && input == old(input)
      ensures isTyping == old(isTyping) && pending == old(pending)
    {
      isOpen := !isOpen;
    }

    /** The launcher pulses while the widget is closed and the visitor has
        not sent anything yet: every message so far is the bot's. */
    predicate PulseOn(): (on: bool)
      reads this
      ensures on <==> !isOpen && forall k :: 0 <= k < |messages| ==> messages[k].sender == Bot
    {
      Pulses(isOpen, messages)
    }
  }

  /** Greeting, send, reply, send: the reply and the second user message both
      get id 4. */
  method DuplicateIdScenario() returns (replyId: int, secondSendId: int)
    ensures replyId == 4 && secondSendId == 4
  {
    var chat := new ChatWidget();
    chat.ToggleOpen();
    chat.SetInput("Hello");
    assert !IsWhitespace(chat.input[0]);
    chat.HandleSendMessage(0);
    chat.DeliverReply();
    chat.SetInput("Thanks");
    assert !IsWhitespace(chat.input[0]);
    chat.HandleSendMessage(1);
    replyId, secondSendId := chat.messages[2].id, chat.messages[3].id;
  }

  /** The pulse is on at first, and after the first non-blank send it stays
      off whatever happens next, open or closed. */
  method PulseScenario() returns (before: bool, afterSend: bool, afterReplyAndClose: bool)
    ensures before && !afterSend && !afterReplyAndClose
  {
    var chat := new ChatWidget();
    before := chat.PulseOn();
    chat.ToggleOpen();
    chat.SetInput("Hi");
    assert !IsWhitespace(chat.input[0]);
    chat.HandleSendMessage(2);
    chat.ToggleOpen();
    afterSend := chat.PulseOn();
    var sent := chat.messages;
    assert sent[1].sender == User;
    chat.DeliverReply();
    PulseStaysOffOnceSent(sent, chat.messages[|sent|..], chat.isOpen);
    assert chat.messages == sent + chat.messages[|sent|..];
    afterReplyAndClose := chat.PulseOn();
  }
}
