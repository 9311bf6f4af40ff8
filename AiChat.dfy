/**
 * The AI assistant panel (apps/web/src/components/ai/ai-chat.tsx): the
 * conversation, the input line and the loading flag.  Sending appends the
 * user's message and starts a one-second timer whose expiry appends the
 * canned reply; the timers in flight are counted in `pendingReplies`, and
 * each expiry is its own step (`Reply`).
 */
module AiChat {
  import opened Text

  datatype Role = User | Assistant

  /** A message; the timestamp is the clock reading passed in, in milliseconds. */
  datatype Message = Message(role: Role, content: string, timestamp: int)

  const Greeting := "Hi! I can help you with code reviews, test generation, documentation, and more. What would you like me to do?"
  const CannedReply := "I can help you with that! Let me analyze your code..."

  /** How many messages have the given role. */
  function CountRole(messages: seq<Message>, role: Role): (n: nat)
    ensures n <= |messages|
  {
    if |messages| == 0 then 0
    else (if messages[0].role == role then 1 else 0) + CountRole(messages[1..], role)
  }

  /** Appending one message adds one to its role's count and nothing to the other's. */
  lemma {:induction false} CountRoleAppend(messages: seq<Message>, m: Message, role: Role)
    ensures CountRole(messages + [m], role) == CountRole(messages, role) + (if m.role == role then 1 else 0)
    decreases |messages|
  {
    if |messages| == 0 {
      assert messages + [m] == [m];
    } else {
      assert (messages + [m])[1..] == messages[1..] + [m];
      CountRoleAppend(messages[1..], m, role);
    }
  }

  /** Every message is the user's or the assistant's, so the two counts add up to the length. */
  lemma {:induction false} RolesPartition(messages: seq<Message>)
    ensures CountRole(messages, User) + CountRole(messages, Assistant) == |messages|
    decreases |messages|
  {
    if |messages| > 0 {
      RolesPartition(messages[1..]);
    }
  }

  /**
   * Under the conversation invariant the length is fixed by the user
   * messages and the timers in flight: the greeting, each user message, and
   * each reply that has already arrived.
   */
  lemma ConversationLength(messages: seq<Message>, pendingReplies: nat)
    requires CountRole(messages, User) + 1 == CountRole(messages, Assistant) + pendingReplies
    ensures |messages| + pendingReplies == 2 * CountRole(messages, User) + 1
  {
    RolesPartition(messages);
  }

  /** Nothing is sent that is empty or white space only (`!input.trim()`). */
  predicate Blank(s: string)
  {
    forall i :: 0 <= i < |s| ==> JsIsSpace(s[i])
  }

  class AiChat {
    var messages: seq<Message>
    var input: string
    var loading: bool
    /** Reply timers started and not yet expired. */
    var pendingReplies: nat

    /**
     * The conversation opens with the greeting, and every user message is
     * answered once its timer expires: the assistant messages besides the
     * greeting plus the timers in flight equal the user messages.
     */
    ghost predicate Valid()
      reads this
    {
      && |messages| >= 1
      && messages[0].role == Assistant && messages[0].content == Greeting
      && CountRole(messages, User) + 1 == CountRole(messages, Assistant) + pendingReplies
    }

    constructor (now: int)
      ensures messages == [Message(Assistant, Greeting, now)]
      ensures input == "" && !loading && pendingReplies == 0
      ensures Valid()
    {
      messages := [Message(Assistant, Greeting, now)];
      input := "";
      loading := false;
      pendingReplies := 0;
      new;
      assert CountRole(messages, Assistant) == 1;
    }

    /** The input's `onChange`. */
    method SetInput(value: string)
      modifies this
      ensures input == value
      ensures messages == old(messages) && loading == old(loading) && pendingReplies == old(pendingReplies)
    {
      input := value;
    }

    /**
     * `handleSend` (the Enter key reaches it even while loading): a blank
     * input changes nothing; otherwise the untrimmed input is appended as the
     * user's message, the input is cleared, loading starts and a reply timer
     * is started.
     */
    method Send(now: int)
      requires Valid()
      modifies this
      ensures Valid()
      ensures Blank(old(input)) ==> (
        && messages == old(messages) && input == old(input)
        && loading == old(loading) && pendingReplies == old(pendingReplies))
      ensures !Blank(old(input)) ==> (
        && messages == old(messages) + [Message(User, old(input), now)]
        && input == "" && loading && pendingReplies == old(pendingReplies) + 1)
    {
      JsTrimEmptyIffBlank(input);
      if JsTrim(input) == "" {
        return;
      }
      var userMessage := Message(User, input, now);
      CountRoleAppend(messages, userMessage, User);
      CountRoleAppend(messages, userMessage, Assistant);
      messages := messages + [userMessage];
      input := "";
      loading := true;
      pendingReplies := pendingReplies + 1;
    }

    /**
     * A reply timer expires: the canned reply is appended and loading stops,
     * even when another timer is still running.
     */
    method Reply(now: int)
      requires Valid() && pendingReplies > 0
      modifies this
      ensures Valid()
      ensures messages == old(messages) + [Message(Assistant, CannedReply, now)]
      ensures !loading && input == old(input) && pendingReplies == old(pendingReplies) - 1
    {
      var aiMessage := Message(Assistant, CannedReply, now);
      CountRoleAppend(messages, aiMessage, User);
      CountRoleAppend(messages, aiMessage, Assistant);
      messages := messages + [aiMessage];
      loading := false;
      pendingReplies := pendingReplies - 1;
    }
  }
}
