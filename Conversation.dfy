/** The values exchanged with the language-model gateway: role-tagged turns.
    A turn in index.js is `{ role, parts: [{ text }] }`; every turn the handler
    builds has exactly one part, so a turn here carries that one text. */
module Conversation {

  datatype Option<T> = None | Some(value: T)

  /** The two roles the handler writes: "user" and "model". */
  datatype Role = User | Model

  /** The `text` of a part. The handler never checks `req.body.message`, so a
      request without a `message` field carries `undefined` into the payload
      and into the stored history. */
  datatype Text = Defined(value: string) | Undefined

  datatype Turn = Turn(role: Role, text: Text)

  /** The role the turn at position i of a history must have. */
  function RoleAt(i: nat): Role {
    if i % 2 == 0 then User else Model
  }

  /** A history made only of complete exchanges: a user turn followed by a
      model turn, with the model's reply always a defined string. */
  ghost predicate Paired(h: seq<Turn>) {
    && |h| % 2 == 0
    && (forall i :: 0 <= i < |h| ==> h[i].role == RoleAt(i))
    && (forall i :: 0 <= i < |h| && i % 2 == 1 ==> h[i].text.Defined?)
  }
}
