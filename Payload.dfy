/** Composition of the `contents` payload sent to the model gateway for one
    chat request: the persona instruction and the knowledge text in one user
    block, a fixed acknowledgement from the model, the session's prior turns,
    and the new user message. */
module Payload {
  import opened Conversation

  const ContextStart := "--- TEXTO DE CONTEXTO ---"
  const ContextEnd := "--- FIN DEL TEXTO ---"

  /** The canned model turn that follows the prompt block. */
  const Acknowledgement := "Entendido. Estoy lista para responder."

  /** Everything `fullPrompt` holds before the knowledge text: a line break,
      the instruction, an empty line and the opening marker on its own line. */
  function PromptHead(instruction: string): string {
    "\n" + instruction + "\n\n" + ContextStart + "\n"
  }

  /** Everything `fullPrompt` holds after the knowledge text. */
  const PromptTail := "\n" + ContextEnd + "\n"

  /** The `fullPrompt` template: the instruction, then the knowledge text
      enclosed between the opening and the closing marker. */
  function FullPrompt(instruction: string, knowledge: string): (r: string)
    ensures |r| == |instruction| + |knowledge| + |ContextStart| + |ContextEnd| + 6
    ensures r[0] == '\n' && r[1..1 + |instruction|] == instruction
    ensures r[1 + |instruction| .. 3 + |instruction|] == "\n\n"
    ensures r[|instruction| + 3 .. |instruction| + 3 + |ContextStart|] == ContextStart
    ensures r[|instruction| + 4 + |ContextStart| .. |instruction| + 4 + |ContextStart| + |knowledge|] == knowledge
    ensures r[|instruction| + 3 + |ContextStart|] == '\n'
    ensures r[|r| - 2 - |ContextEnd|] == '\n'
    ensures r[|r| - 1 - |ContextEnd| .. |r| - 1] == ContextEnd
    ensures r[|r| - 1] == '\n'
  {
    PromptHead(instruction) + knowledge + PromptTail
  }

  /** Reads the knowledge text back out of a prompt built for `instruction`,
      or None when the prompt does not have that framing. */
  function KnowledgeIn(prompt: string, instruction: string): Option<string> {
    var head := PromptHead(instruction);
    if |head| + |PromptTail| <= |prompt|
       && prompt[..|head|] == head
       && prompt[|prompt| - |PromptTail|..] == PromptTail
    then Some(prompt[|head| .. |prompt| - |PromptTail|])
    else None
  }

  /** The framing is unambiguous: a prompt carries knowledge text k for an
      instruction exactly when it is the prompt built from the two. */
  lemma KnowledgeInIff(prompt: string, instruction: string, knowledge: string)
    ensures KnowledgeIn(prompt, instruction) == Some(knowledge)
            <==> prompt == FullPrompt(instruction, knowledge)
  {
    var head := PromptHead(instruction);
    if prompt == FullPrompt(instruction, knowledge) {
      assert prompt[..|head|] == head;
      assert prompt[|head| .. |prompt| - |PromptTail|] == knowledge;
      assert prompt[|prompt| - |PromptTail|..] == PromptTail;
    }
    if KnowledgeIn(prompt, instruction) == Some(knowledge) {
      assert prompt == prompt[..|head|] + prompt[|head| .. |prompt| - |PromptTail|]
                       + prompt[|prompt| - |PromptTail|..];
    }
  }

  /** The `contents` array of index.js: prompt block, acknowledgement, the
      history spread in unchanged, and the new message with no wrapping. */
  function Compose(instruction: string, knowledge: string, history: seq<Turn>, message: Text)
    : (contents: seq<Turn>)
    ensures |contents| == |history| + 3
    ensures contents[0] == Turn(User, Defined(FullPrompt(instruction, knowledge)))
    ensures contents[1] == Turn(Model, Defined(Acknowledgement))
    ensures contents[2 .. |contents| - 1] == history
    ensures forall i :: 0 <= i < |history| ==> contents[i + 2] == history[i]
    ensures contents[|contents| - 1] == Turn(User, message)
  {
    [Turn(User, Defined(FullPrompt(instruction, knowledge))), Turn(Model, Defined(Acknowledgement))]
    + history + [Turn(User, message)]
  }

  /** The request-specific parts of a payload. */
  datatype Parts = Parts(knowledge: string, history: seq<Turn>, message: Text)

  /** Takes a payload apart again, given the instruction it was built with. */
  function Split(contents: seq<Turn>, instruction: string): Option<Parts> {
    if |contents| < 3 then None
    else
      var first, last := contents[0], contents[|contents| - 1];
      if first.role != User || !first.text.Defined? then None
      else if contents[1] != Turn(Model, Defined(Acknowledgement)) || last.role != User then None
      else match KnowledgeIn(first.text.value, instruction)
        case None => None
        case Some(k) => Some(Parts(k, contents[2 .. |contents| - 1], last.text))
  }

  /** For a fixed instruction, a payload determines its composition: Split
      recovers the knowledge, the history and the message, and nothing else
      splits that way. */
  lemma SplitIff(contents: seq<Turn>, instruction: string, knowledge: string,
                 history: seq<Turn>, message: Text)
    ensures Split(contents, instruction) == Some(Parts(knowledge, history, message))
            <==> contents == Compose(instruction, knowledge, history, message)
  {
    var c := Compose(instruction, knowledge, history, message);
    if contents == c {
      KnowledgeInIff(FullPrompt(instruction, knowledge), instruction, knowledge);
    }
    if Split(contents, instruction) == Some(Parts(knowledge, history, message)) {
      var p := contents[0].text.value;
      KnowledgeInIff(p, instruction, knowledge);
      assert contents == contents[..2] + contents[2 .. |contents| - 1] + [contents[|contents| - 1]];
    }
  }
}
