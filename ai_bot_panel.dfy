/**
  * The AI assistant tab: a message list that starts with a greeting, takes
  * the user's questions and, one second after each, appends a canned reply.
  */
module AIBotPanel {
  import opened Text

  datatype Role = User | Assistant

  datatype Message = Message(id: string, role: Role, content: string)

  const Greeting := Message("1", Assistant,
    "Hello! I'm your AI study assistant. I can help explain concepts, answer questions, and provide additional resources. What would you like to know?")

  const ReplyText := "I understand your question. Let me explain that in detail..."

  function CountRole(ms: seq<Message>, role: Role): nat
    decreases |ms|
  {
    if ms == [] then 0 else (if ms[0].role == role then 1 else 0) + CountRole(ms[1..], role)
  }

  lemma {:induction false} CountRoleAppend(a: seq<Message>, b: seq<Message>, role: Role)
    ensures CountRole(a + b, role) == CountRole(a, role) + CountRole(b, role)
    decreases |a|
  {
    if a != [] {
      assert (a + b)[1..] == a[1..] + b;
      CountRoleAppend(a[1..], b, role);
    } else {
      assert a + b == b;
    }
  }

  class Panel {
    var messages: seq<Message>
    var newQuestion: string
    /** Replies scheduled with `setTimeout` that have not been delivered yet. */
    var pendingReplies: nat

    /**
      * The greeting stays first, and every question is answered once its
      * reply is delivered: questions = replies still pending + replies given.
      */
    ghost predicate Valid()
      reads this
    {
      && |messages| >= 1 && messages[0] == Greeting
      && CountRole(messages, User) + 1 == CountRole(messages, Assistant) + pendingReplies
    }

    constructor ()
      ensures Valid()
      ensures messages == [Greeting] && newQuestion == "" && pendingReplies == 0
    {
      messages := [Greeting];
      newQuestion := "";
      pendingReplies := 0;
    }

    method SetNewQuestion(text: string)
      requires Valid()
      modifies this
      ensures Valid()
      ensures newQuestion == text && messages == old(messages) && pendingReplies == old(pendingReplies)
    {
      newQuestion := text;
    }

    /**
      * `handleSubmit`: a question that is not blank is appended verbatim, a
      * reply is scheduled and the input cleared; a blank one changes nothing.
      * `freshId` stands for `Date.now().toString()`.
      */
    method HandleSubmit(freshId: string) returns (asked: bool)
      requires Valid()
      modifies this
      ensures Valid()
      ensures asked <==> !IsBlank(old(newQuestion))
      ensures asked ==> messages == old(messages) + [Message(freshId, User, old(newQuestion))]
      ensures asked ==> newQuestion == "" && pendingReplies == old(pendingReplies) + 1
      ensures !asked ==> messages == old(messages) && newQuestion == old(newQuestion) && pendingReplies == old(pendingReplies)
    {
      if !IsBlank(newQuestion) {
        var m := Message(freshId, User, newQuestion);
        CountRoleAppend(messages, [m], User);
        CountRoleAppend(messages, [m], Assistant);
        messages := messages + [m];
        pendingReplies := pendingReplies + 1;
        newQuestion := "";
        asked := true;
      } else {
        asked := false;
      }
    }

    /** A scheduled reply fires: the canned answer goes after whatever the list holds by then. */
    method DeliverReply(freshId: string)
      requires Valid() && pendingReplies > 0
      modifies this
      ensures Valid()
      ensures messages == old(messages) + [Message(freshId, Assistant, ReplyText)]
      ensures pendingReplies == old(pendingReplies) - 1 && newQuestion == old(newQuestion)
    {
      var m := Message(freshId, Assistant, ReplyText);
      CountRoleAppend(messages, [m], User);
      CountRoleAppend(messages, [m], Assistant);
      messages := messages + [m];
      pendingReplies := pendingReplies - 1;
    }
  }
}
