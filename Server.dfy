/** The web server's chat state: the knowledge text loaded before the server
    starts listening, the persona instruction, and the `chatHistories` table
    that the `POST /chat` handler updates in place. */
module Server {
  import opened Conversation
  import opened Payload
  import opened Sessions

  class ChatServer {
    /** The persona instruction every prompt starts with (`systemInstruction`). */
    const instruction: string
    /** The knowledge text, fixed before the first request. */
    const knowledge: string
    /** Session key to that session's turns, in the order they were pushed. */
    var chatHistories: Histories

    /** Every stored history is a sequence of complete user/model exchanges. */
    ghost predicate Valid()
      reads this
    {
      AllPaired(chatHistories)
    }

    constructor (instruction: string, knowledge: string)
      ensures this.instruction == instruction && this.knowledge == knowledge
      ensures chatHistories == map[]
      ensures Valid()
    {
      this.instruction := instruction;
      this.knowledge := knowledge;
      chatHistories := map[];
    }

    /** Get-or-create: an unknown key gets an empty history stored under it,
        a known key keeps the history it has; the caller gets that history. */
    method GetOrCreate(key: string) returns (history: seq<Turn>)
      requires Valid()
      modifies this`chatHistories
      ensures Valid()
      ensures chatHistories == WithSession(old(chatHistories), key)
      ensures key in old(chatHistories) ==> history == old(chatHistories)[key]
      ensures key !in old(chatHistories) ==> history == []
      ensures history == chatHistories[key]
    {
      if key !in chatHistories {
        chatHistories := chatHistories[key := []];
      }
      history := chatHistories[key];
    }

    /** The `POST /chat` handler for a request from session `key`. The
        gateway is applied to the composed payload: Some(reply) when it
        answers, None when the call or reading its text throws. On a reply
        the user turn and then the model turn are pushed and the reply is
        returned; on a failure nothing is pushed and the fixed error goes
        back with status 500, though the session may have been created. */
    method HandleChat(key: string, message: Text, gateway: seq<Turn> -> Option<string>)
      returns (response: Response)
      requires Valid()
      modifies this`chatHistories
      ensures Valid()
      ensures var prior := Lookup(old(chatHistories), key);
              var outcome := gateway(Compose(instruction, knowledge, prior, message));
              Handled(chatHistories, response) == Step(old(chatHistories), key, message, outcome)
    {
      var history := GetOrCreate(key);
      ghost var created := chatHistories;
      var contents := Compose(instruction, knowledge, history, message);
      var result := gateway(contents);
      match result {
        case Some(botReply) =>
          chatHistories := chatHistories[key := chatHistories[key] + [Turn(User, message)]];
          chatHistories := chatHistories[key := chatHistories[key] + [Turn(Model, Defined(botReply))]];
          response := Response(StatusOk, botReply);
          assert history + [Turn(User, message)] + [Turn(Model, Defined(botReply))]
              == Commit(history, message, result);
          assert chatHistories == created[key := Commit(history, message, result)];
        case None =>
          response := Response(StatusServerError, ErrorReply);
          assert chatHistories == created[key := Commit(history, message, result)];
      }
      StepKeepsPaired(old(chatHistories), key, message, result);
    }
  }
}
