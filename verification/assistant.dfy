/**
 * The chat panel of the assistant: whether it is open, the message list and
 * the input box. Timestamps are dropped. Each send starts a one-second timer
 * whose firing appends a randomly drawn suggestion; the firing is an event
 * of its own and the draw is its parameter.
 */
module Assistant {
  import opened Text

  datatype Role = UserRole | AssistantRole

  datatype Message = Message(role: Role, content: string)

  /** `scheduled` is not React state: it counts the reply timers started by a send that have not fired yet. */
  datatype Chat = Chat(isOpen: bool, messages: seq<Message>, input: string, scheduled: nat)

  const Greeting := "Hello! I'm your Financial AI Assistant. How can I help you with your financial planning today?"

  /** The canned replies a timer picks from. */
  const Suggestions: seq<string> := [
    "Based on your current savings rate, you could reach your retirement goal by age 58.",
    "I recommend allocating 60% to equity funds and 40% to debt funds for your child's education goal.",
    "Your emergency fund should ideally be around $15,000 based on your monthly expenses.",
    "For tax-efficient investing, consider maxing out your retirement accounts first.",
    "Your current debt-to-income ratio is healthy at below 30%."]

  /** The panel when it mounts: closed, one greeting from the assistant, an empty input and no timer running. */
  function Initial(): (c: Chat)
    ensures !c.isOpen && c.input == [] && c.scheduled == 0
    ensures |c.messages| == 1 && c.messages[0].role == AssistantRole && c.messages[0].content != []
  {
    Chat(false, [Message(AssistantRole, Greeting)], "", 0)
  }

  /** `toggleChat`. */
  function Toggle(c: Chat): (r: Chat)
    ensures r.isOpen == !c.isOpen
    ensures r.messages == c.messages && r.input == c.input && r.scheduled == c.scheduled
  {
    c.(isOpen := !c.isOpen)
  }

  /** The input box's `onChange`. */
  function Type(c: Chat, text: string): (r: Chat)
    ensures r.input == text && r.isOpen == c.isOpen && r.messages == c.messages && r.scheduled == c.scheduled
  {
    c.(input := text)
  }

  /**
   * `handleSendMessage`: blank input is ignored; otherwise the input,
   * untrimmed, becomes one more user message, the box is cleared and a reply
   * timer starts.
   */
  function Send(c: Chat): (r: Chat)
    ensures AllSpace(c.input) ==> r == c
    ensures !AllSpace(c.input) ==>
      && r.messages == c.messages + [Message(UserRole, c.input)]
      && r.input == [] && r.isOpen == c.isOpen && r.scheduled == c.scheduled + 1
  {
    if IsBlank(c.input) then c
    else c.(messages := c.messages + [Message(UserRole, c.input)], input := "", scheduled := c.scheduled + 1)
  }

  /**
   * A reply timer fires: the suggestion at the drawn index is appended as an
   * assistant message. `Math.floor(Math.random() * 5)` is any of the five
   * indices, so the draw is any natural number taken modulo 5.
   */
  function Reply(c: Chat, draw: nat): (r: Chat)
    ensures c.scheduled == 0 ==> r == c
    ensures c.scheduled > 0 ==>
      && r.messages == c.messages + [Message(AssistantRole, Suggestions[draw % |Suggestions|])]
      && r.scheduled == c.scheduled - 1 && r.input == c.input && r.isOpen == c.isOpen
  {
    if c.scheduled == 0 then c
    else c.(messages := c.messages + [Message(AssistantRole, Suggestions[draw % |Suggestions|])], scheduled := c.scheduled - 1)
  }

  /** `handleKeyPress`: only Enter sends. */
  function KeyPress(c: Chat, key: string): (r: Chat)
    ensures key == "Enter" ==> r == Send(c)
    ensures key != "Enter" ==> r == c
  {
    if key == "Enter" then Send(c) else c
  }

  /** Sending never drops or rewrites a message already in the list, and adds at most one. */
  lemma SendExtends(c: Chat)
    ensures c.messages <= Send(c).messages
    ensures |Send(c).messages| <= |c.messages| + 1
  {
  }

  /** A second send right after a successful one does nothing, because the box is now empty. */
  lemma SendTwiceIsSendOnce(c: Chat)
    ensures Send(Send(c)) == Send(c)
  {
  }

  /** Toggling twice restores the panel. */
  lemma ToggleTwice(c: Chat)
    ensures Toggle(Toggle(c)) == c
  {
  }

  /** Surrounding white space is kept in the message, and white space alone is not sent. */
  lemma SendExamples(c: Chat)
    ensures Send(Type(c, "  hi ")).messages == c.messages + [Message(UserRole, "  hi ")]
    ensures Send(Type(c, " \t ")) == Type(c, " \t ")
  {
    var s := "  hi ";
    assert s[2] == 'h' && !IsSpace(s[2]);
    var t := " \t ";
    assert IsSpace(t[0]) && IsSpace(t[1]) && IsSpace(t[2]);
  }

  /** What the user can do to the panel, and a reply timer firing. */
  datatype Event = Typed(text: string) | Pressed(key: string) | Toggled | ReplyDue(draw: nat)

  function Step(c: Chat, e: Event): Chat
  {
    match e
    case Typed(text) => Type(c, text)
    case Pressed(key) => KeyPress(c, key)
    case Toggled => Toggle(c)
    case ReplyDue(draw) => Reply(c, draw)
  }

  function Run(c: Chat, es: seq<Event>): Chat
    decreases |es|
  {
    if es == [] then c else Run(Step(c, es[0]), es[1..])
  }

  /** The number of messages with the given role. */
  function Count(ms: seq<Message>, role: Role): nat
    decreases |ms|
  {
    if ms == [] then 0 else Count(ms[..|ms| - 1], role) + (if ms[|ms| - 1].role == role then 1 else 0)
  }

  lemma CountSnoc(ms: seq<Message>, m: Message, role: Role)
    ensures Count(ms + [m], role) == Count(ms, role) + (if m.role == role then 1 else 0)
  {
    assert (ms + [m])[..|ms|] == ms;
  }

  /**
   * The history the panel keeps: the greeting first, then non-blank user
   * messages and suggestions, with one reply either shown or still
   * scheduled for every user message.
   */
  predicate History(c: Chat)
  {
    && |c.messages| >= 1 && c.messages[0] == Message(AssistantRole, Greeting)
    && (forall i :: 1 <= i < |c.messages| ==>
          if c.messages[i].role == UserRole then !AllSpace(c.messages[i].content)
          else c.messages[i].content in Suggestions)
    && Count(c.messages, AssistantRole) + c.scheduled == Count(c.messages, UserRole) + 1
  }

  /** Each event keeps the history and only appends to the list. */
  lemma StepKeepsHistory(c: Chat, e: Event)
    requires History(c)
    ensures History(Step(c, e)) && c.messages <= Step(c, e).messages
  {
    var r := Step(c, e);
    if r.messages != c.messages {
      assert |r.messages| == |c.messages| + 1 && r.messages[..|c.messages|] == c.messages;
      CountSnoc(c.messages, r.messages[|c.messages|], AssistantRole);
      CountSnoc(c.messages, r.messages[|c.messages|], UserRole);
    }
  }

  /** Whatever the user does and whenever the timers fire, the history is kept and the list only grows. */
  lemma {:induction false} RunKeepsHistory(c: Chat, es: seq<Event>)
    requires History(c)
    ensures History(Run(c, es)) && c.messages <= Run(c, es).messages
    decreases |es|
  {
    if es != [] {
      var next := Step(c, es[0]);
      StepKeepsHistory(c, es[0]);
      RunKeepsHistory(next, es[1..]);
    }
  }

  /**
   * From the panel as mounted: the greeting stays first, every user message
   * was non-blank, every other message is a suggestion, and there are never
   * more replies than user messages.
   */
  lemma {:induction false} HistoryFromInitial(es: seq<Event>)
    ensures var ms := Run(Initial(), es).messages;
      && |ms| >= 1 && ms[0] == Message(AssistantRole, Greeting)
      && (forall i :: 1 <= i < |ms| && ms[i].role == UserRole ==> !AllSpace(ms[i].content))
      && (forall i :: 1 <= i < |ms| && ms[i].role == AssistantRole ==> ms[i].content in Suggestions)
      && Count(ms, AssistantRole) <= Count(ms, UserRole) + 1
  {
    assert Initial().messages[..0] == [];
    RunKeepsHistory(Initial(), es);
  }
}
