/** The chat box: a message list, the input field and a loading flag. A
    submit is ignored while loading or when the input is blank; otherwise
    the input is appended as a user message, sent, and exactly one
    assistant message (the reply or a fixed apology) follows. The chat
    route's answer is an oracle parameter. */
module ChatBox {
  import Text

  datatype Role = User | Assistant

  datatype Message = Message(role: Role, content: string)

  datatype Chat = Chat(messages: seq<Message>, input: string, isLoading: bool)

  const Initial := Chat([], "", false)

  const Apology := "Sorry, I encountered an error processing your message."

  /** The chat route's answer: `fetch` or `response.json()` threw, or a
      response with its `ok` flag and its `message` field. */
  datatype Reply = ReplyFailed | Replied(ok: bool, message: string)

  /** Typing into the field; the field is disabled while loading. */
  function Type(c: Chat, text: string): (r: Chat)
    ensures r.messages == c.messages && r.isLoading == c.isLoading
    ensures r.input == (if c.isLoading then c.input else text)
  {
    if c.isLoading then c else c.(input := text)
  }

  /** The submit guard `!input.trim() || isLoading`. */
  predicate Accepts(c: Chat) {
    Text.Trim(c.input) != [] && !c.isLoading
  }

  /** The synchronous half of `handleSubmit`: the user message is appended
      with the untrimmed input, the input cleared, loading set, and the
      request body carries the input as it was before clearing. */
  function Send(c: Chat): (r: (Chat, string))
    requires Accepts(c)
    ensures r.0.messages == c.messages + [Message(User, c.input)]
    ensures r.0.input == [] && r.0.isLoading
    ensures r.1 == c.input && Text.Trim(r.1) != []
  {
    (Chat(c.messages + [Message(User, c.input)], "", true), c.input)
  }

  /** The assistant message a reply produces. */
  function Answer(reply: Reply): (m: Message)
    ensures m.role == Assistant
    ensures m.content == (if reply.Replied? && reply.ok then reply.message else Apology)
  {
    match reply
    case Replied(true, msg) => Message(Assistant, msg)
    case _ => Message(Assistant, Apology)
  }

  /** `handleSubmit` with the route's answer supplied. */
  function Submit(c: Chat, reply: Reply): (r: Chat)
    // a blank input or a pending request changes nothing
    ensures !Accepts(c) ==> r == c
    // otherwise exactly two messages are appended: the untrimmed input and one answer
    ensures Accepts(c) ==>
      |r.messages| == |c.messages| + 2
      && r.messages[..|c.messages|] == c.messages
      && r.messages[|c.messages|] == Message(User, c.input)
      && r.messages[|c.messages| + 1].role == Assistant
      && (reply.Replied? && reply.ok ==> r.messages[|c.messages| + 1].content == reply.message)
      && (!(reply.Replied? && reply.ok) ==> r.messages[|c.messages| + 1].content == Apology)
      && r.input == [] && !r.isLoading
  {
    if !Accepts(c) then c
    else
      var sent := Send(c).0;
      sent.(messages := sent.messages + [Answer(reply)], isLoading := false)
  }

  /** Whitespace-only input is never sent, whatever it contains. */
  lemma BlankInputIgnored(c: Chat, reply: Reply)
    requires Text.Blank(c.input)
    ensures Submit(c, reply) == c
  {
    Text.TrimEmptyIffBlank(c.input);
  }

  /** An input with a non-space character is sent when idle. */
  lemma NonBlankInputSent(c: Chat)
    requires !Text.Blank(c.input) && !c.isLoading
    ensures Accepts(c) && Send(c).1 == c.input
  {
    Text.TrimEmptyIffBlank(c.input);
  }

  /** The history alternates user, assistant, user, assistant, … */
  predicate Alternating(ms: seq<Message>)
    decreases |ms|
  {
    ms == [] || (|ms| >= 2 && ms[0].role == User && ms[1].role == Assistant && Alternating(ms[2..]))
  }

  /** Appending a user message and then an assistant message keeps the
      history alternating. */
  lemma {:induction false} AppendPairAlternates(ms: seq<Message>, u: Message, a: Message)
    requires Alternating(ms) && u.role == User && a.role == Assistant
    ensures Alternating(ms + [u, a])
    decreases |ms|
  {
    if ms != [] {
      assert (ms + [u, a])[2..] == ms[2..] + [u, a];
      AppendPairAlternates(ms[2..], u, a);
    }
  }

  /** What the user can do between submits. */
  datatype Action = TypeText(text: string) | SubmitWith(reply: Reply)

  function Perform(c: Chat, a: Action): Chat {
    match a
    case TypeText(t) => Type(c, t)
    case SubmitWith(reply) => Submit(c, reply)
  }

  function Session(c: Chat, actions: seq<Action>): Chat
    decreases |actions|
  {
    if actions == [] then c else Session(Perform(c, actions[0]), actions[1..])
  }

  /** One action keeps the history alternating and extends it. */
  lemma PerformKeepsAlternating(c: Chat, a: Action)
    requires Alternating(c.messages) && !c.isLoading
    ensures var r := Perform(c, a);
      Alternating(r.messages) && !r.isLoading
      && |c.messages| <= |r.messages| && r.messages[..|c.messages|] == c.messages
  {
    if a.SubmitWith? && Accepts(c) {
      var r := Perform(c, a);
      var n := |c.messages|;
      assert r.messages == c.messages + [r.messages[n], r.messages[n + 1]];
      AppendPairAlternates(c.messages, r.messages[n], r.messages[n + 1]);
    }
  }

  /** Over any session messages are only appended, never changed or removed,
      the history keeps alternating, and loading ends false. */
  lemma {:induction false} SessionAppendsOnly(c: Chat, actions: seq<Action>)
    requires Alternating(c.messages) && !c.isLoading
    ensures var r := Session(c, actions);
      |c.messages| <= |r.messages| && r.messages[..|c.messages|] == c.messages
      && Alternating(r.messages) && !r.isLoading
    decreases |actions|
  {
    if actions != [] {
      PerformKeepsAlternating(c, actions[0]);
      var next := Perform(c, actions[0]);
      SessionAppendsOnly(next, actions[1..]);
      var r := Session(next, actions[1..]);
      assert r.messages[..|next.messages|] == next.messages;
      assert next.messages[..|c.messages|] == c.messages;
      assert r.messages[..|c.messages|] == r.messages[..|next.messages|][..|c.messages|];
    }
  }
}
