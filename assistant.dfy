/**
 * The scripted assistant: a question made only of white space is ignored;
 * any other question is appended to the transcript as the user's message and
 * the input is cleared; after the simulated delay one canned reply follows.
 */
module Assistant {

  datatype Role = UserRole | AssistantRole

  datatype Message = Message(role: Role, text: string)

  const Greeting := Message(AssistantRole, "Hi! Ask me any compliance question for your MSME.")

  const CannedReply := Message(AssistantRole,
    "(Demo) I\U{00E2}\U{20AC}\U{2122}d analyze latest rules (GST/Labour/Safety) for your sector and summarize what applies to you.")

  /** The characters a JavaScript `trim` removes: white space and line terminators. */
  predicate IsJsWhitespace(c: char) {
    c == '\t' || c == '\U{000B}' || c == '\U{000C}' || c == ' ' || c == '\U{00A0}' || c == '\U{FEFF}'
    || c == '\n' || c == '\r' || c == '\U{2028}' || c == '\U{2029}'
    || c == '\U{1680}' || ('\U{2000}' <= c <= '\U{200A}') || c == '\U{202F}' || c == '\U{205F}' || c == '\U{3000}'
  }

  predicate IsBlank(s: string) {
    forall i :: 0 <= i < |s| ==> IsJsWhitespace(s[i])
  }

  /** `s` without its leading white space. */
  function TrimStart(s: string): (r: string)
    ensures |r| <= |s| && r == s[|s| - |r|..]
    ensures r == [] || !IsJsWhitespace(r[0])
    ensures forall i :: 0 <= i < |s| - |r| ==> IsJsWhitespace(s[i])
  {
    if s == [] || !IsJsWhitespace(s[0]) then s else TrimStart(s[1..])
  }

  /** `s` without its trailing white space. */
  function TrimEnd(s: string): (r: string)
    ensures |r| <= |s| && r == s[..|r|]
    ensures r == [] || !IsJsWhitespace(r[|r| - 1])
    ensures forall i :: |r| <= i < |s| ==> IsJsWhitespace(s[i])
  {
    if s == [] || !IsJsWhitespace(s[|s| - 1]) then s else TrimEnd(s[..|s| - 1])
  }

  /** `s` without white space at either end: empty, or starting and ending with a visible character. */
  function Trim(s: string): (r: string)
    ensures |r| <= |s|
    ensures r == [] || (!IsJsWhitespace(r[0]) && !IsJsWhitespace(r[|r| - 1]))
  {
    TrimEnd(TrimStart(s))
  }

  /** The trimmed question is empty, and so falsy, exactly when the question is all white space. */
  lemma TrimEmptyIffBlank(s: string)
    ensures Trim(s) == "" <==> IsBlank(s)
  {
  }

  /** How many messages of `chat` come from `role`. */
  function CountRole(chat: seq<Message>, role: Role): (n: nat)
    ensures n <= |chat|
  {
    if chat == [] then 0 else CountRole(chat[..|chat| - 1], role) + (if chat[|chat| - 1].role == role then 1 else 0)
  }

  /** Every message is either the user's or the assistant's. */
  lemma {:induction false} CountRolesPartition(chat: seq<Message>)
    ensures CountRole(chat, UserRole) + CountRole(chat, AssistantRole) == |chat|
  {
    if chat != [] {
      CountRolesPartition(chat[..|chat| - 1]);
    }
  }

  /** A transcript that opens with a message of `role` counts at least one of them. */
  lemma {:induction false} CountRoleFirst(chat: seq<Message>, role: Role)
    requires chat != [] && chat[0].role == role
    ensures CountRole(chat, role) >= 1
  {
    if |chat| > 1 {
      CountRoleFirst(chat[..|chat| - 1], role);
    }
  }

  /**
   * The card's bookkeeping bounds the replies owed: with the greeting first and
   * one reply per question, delivered or pending, fewer replies are pending than
   * the transcript has messages.
   */
  lemma PendingBelowLength(chat: seq<Message>, pending: nat)
    requires |chat| > 0 && chat[0] == Greeting
    requires CountRole(chat, UserRole) + 1 == CountRole(chat, AssistantRole) + pending
    ensures pending < |chat|
  {
    CountRolesPartition(chat);
    CountRoleFirst(chat, AssistantRole);
  }

  lemma CountRoleAppend(chat: seq<Message>, m: Message, role: Role)
    ensures CountRole(chat + [m], role) == CountRole(chat, role) + (if m.role == role then 1 else 0)
  {
  }

  /**
   * The assistant card: the input box `q` and the transcript `chat`.
   * `pending` counts the replies still to arrive; the invariant says every
   * user message is answered by one reply, delivered or pending, and the
   * greeting comes first.
   */
  class AssistantCard {
    var q: string
    var chat: seq<Message>
    ghost var pending: nat

    ghost predicate Valid()
      reads this
    {
      |chat| > 0 && chat[0] == Greeting
      && CountRole(chat, UserRole) + 1 == CountRole(chat, AssistantRole) + pending
    }

    constructor ()
      ensures Valid()
      ensures q == "" && chat == [Greeting] && pending == 0
    {
      assert [Greeting] == [] + [Greeting];
      CountRoleAppend([], Greeting, UserRole);
      CountRoleAppend([], Greeting, AssistantRole);
      q := "";
      chat := [Greeting];
      pending := 0;
    }

    /** The input box changed. */
    method SetQuery(v: string)
      requires Valid()
      modifies this
      ensures Valid()
      ensures q == v && chat == old(chat) && pending == old(pending)
    {
      q := v;
    }

    /**
     * The Ask button or the Enter key. Returns whether the question was sent;
     * a blank question changes nothing.
     */
    method Ask() returns (sent: bool)
      requires Valid()
      modifies this
      ensures Valid()
      ensures sent <==> !IsBlank(old(q))
      ensures !sent ==> q == old(q) && chat == old(chat) && pending == old(pending)
      ensures sent ==> chat == old(chat) + [Message(UserRole, old(q))] && q == "" && pending == old(pending) + 1
    {
      var question := Trim(q);
      TrimEmptyIffBlank(q);
      if question == "" {
        sent := false;
        return;
      }
      var userMsg := Message(UserRole, q);
      CountRoleAppend(chat, userMsg, UserRole);
      CountRoleAppend(chat, userMsg, AssistantRole);
      chat := chat + [userMsg];
      q := "";
      pending := pending + 1;
      sent := true;
    }

    /** The simulated delay of one sent question has elapsed: the canned reply is appended. */
    method DeliverReply()
      requires Valid()
      requires pending > 0
      modifies this
      ensures Valid()
      ensures chat == old(chat) + [CannedReply] && q == old(q) && pending == old(pending) - 1
      ensures pending < |chat|
    {
      CountRoleAppend(chat, CannedReply, UserRole);
      CountRoleAppend(chat, CannedReply, AssistantRole);
      chat := chat + [CannedReply];
      pending := pending - 1;
      PendingBelowLength(chat, pending);
    }
  }

  /** One question and its reply grow the transcript by exactly two messages. */
  method OneExchange(question: string) returns (transcript: seq<Message>)
    requires !IsBlank(question)
    ensures transcript == [Greeting, Message(UserRole, question), CannedReply]
  {
    var card := new AssistantCard();
    card.SetQuery(question);
    var sent := card.Ask();
    card.DeliverReply();
    transcript := card.chat;
  }

  /** A question of spaces and line breaks is not sent. */
  method BlankQuestionIgnored() returns (transcript: seq<Message>, input: string)
    ensures transcript == [Greeting] && input == " \n\t"
  {
    var card := new AssistantCard();
    card.SetQuery(" \n\t");
    var sent := card.Ask();
    transcript, input := card.chat, card.q;
  }
}
