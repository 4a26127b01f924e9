# Session state and payload composition of a retrieval-augmented chatbot

This project models the core of the chatbot's web server, in `index.js`. The
server keeps `chatHistories`, a table from session key to that session's
conversation turns. For each `POST /chat` request it does four things:

1. It gets or creates the session's history.
2. It composes the `contents` payload: a user block with the persona
   instruction and the knowledge text between the markers
   `--- TEXTO DE CONTEXTO ---` and `--- FIN DEL TEXTO ---`, the fixed model turn
   `Entendido. Estoy lista para responder.`, the prior history, and the new
   message.
3. It calls the language-model gateway.
4. On a reply, it pushes the user turn and then the model turn, and answers
   with the reply. On any exception, it answers with status 500 and
   `Lo siento, ocurrió un error en el servidor.`, and pushes nothing.

Modules:

- `Conversation` (Conversation.dfy): turns, with roles `User` and `Model`
  ("user" and "model" in the code). A turn's text is a string or `Undefined`,
  because the handler does not check `req.body.message`.
- `Payload` (Payload.dfy): `FullPrompt` and `Compose` as pure functions. The
  inverse functions `KnowledgeIn` and `Split` come with if-and-only-if lemmas.
- `Sessions` (Sessions.dfy): the handler as a pure step `Step` over the
  table. `Run` serves a sequence of requests. The lemmas cover growth,
  failure, alternation and isolation.
- `Server` (Server.dfy): class `ChatServer`. It holds the instruction, the
  knowledge text and the `chatHistories` map, which `GetOrCreate` and
  `HandleChat` update in place. `HandleChat` is proved equal to `Step`.
  Its `Valid()` invariant says that every stored history is a sequence of
  complete user/model exchanges.

The gateway call `model.generateContent` is a parameter of `HandleChat`. It is
a function from the composed payload to `Some(reply)` or `None`. `None` stands
for any exception at index.js:79-80, including one thrown while reading the
reply text.

Three details of the handler's behaviour:

- Turn roles are "user" and "model" (index.js:71-72, 83-84).
- The handler does not check `message` (index.js:32). A missing or empty
  `message` is composed and stored as it is: an absent field is stored as
  `Undefined`, an empty one as `Defined("")`.
- A failed request may leave a new empty history behind, because the session
  is created (index.js:35-36) before the gateway call (index.js:79).

## Model

| member | source | states |
|---|---|---|
| Payload.FullPrompt | index.js:61-67 | the prompt is a line break and the instruction, two line breaks, the opening marker and a line break, the knowledge text, a line break, the closing marker and a final line break, each at its stated offset, with the stated total length |
| Payload.KnowledgeInIff | index.js:61-67 | the framing is unambiguous: reading the knowledge back out of a prompt gives k exactly when the prompt was built from the instruction and k |
| Payload.Compose | index.js:70-75 | the payload has length |history| + 3; element 0 is a user block holding the full prompt; element 1 is the fixed model acknowledgement; elements 2 to |history|+1 are the history unchanged and in order; the last element is a user block holding exactly the message |
| Payload.SplitIff | index.js:70-75 | for a fixed instruction, a payload splits into knowledge, history and message exactly when it is their composition, so the payload determines those three |
| Sessions.WithSession | index.js:35-38 | get-or-create: an absent key gets an empty history, a present key keeps its own, every other entry is unchanged, and the key set grows by at most that key |
| Sessions.Commit | index.js:83-84 | on a reply the history grows by exactly two turns, the user's message and then the model's reply, after an unchanged prefix; on a failure it is unchanged |
| Sessions.Step | index.js:30-93 | one request creates the key if needed and leaves every other key's history untouched; on a reply it appends user then model turn and answers 200 with the reply; on a failure it leaves the key's history as get-or-create made it and answers 500 with the fixed error |
| Sessions.ReplayAppends | index.js:83-84 | histories are append-only: replaying requests yields the old history followed by their transcript |
| Sessions.TranscriptLength | index.js:83-84 | the turns added by a sequence of requests number exactly twice its successful requests; failed requests add none |
| Sessions.TranscriptPaired | index.js:83-84 | the added turns alternate user, model, starting with user, and every model turn holds a reply string |
| Sessions.TranscriptOfReplies | index.js:83-84 | when every request succeeds, exchange i sits at positions 2i and 2i+1 as that request's message and then its reply |
| Sessions.RunIsolation | index.js:35-84 | isolation: after any interleaving of requests, a key's history is what that key's own requests alone make of its earlier history |
| Sessions.SessionAfterRun | index.js:83-84 | after any run, a session's history is its earlier turns plus the transcript of its own requests, of length old + 2 × its successes, and stays paired |
| Sessions.NewSessionExchanges | index.js:83-84 | N successful exchanges on a new key, interleaved with any other sessions' traffic, leave exactly 2N alternating turns, with exchange i's message at 2i and its reply at 2i+1 |
| Sessions.StepKeepsPaired | index.js:79-91 | one request, whether it succeeds or fails, keeps every history made of complete user/model exchanges |
| Sessions.RunKeepsPaired | index.js:83-84 | serving any sequence of requests keeps every history in the table made of complete exchanges |
| Server.ChatServer.constructor | index.js:27 | the server starts with an empty session table, holding the given instruction and knowledge text |
| Server.ChatServer.GetOrCreate | index.js:35-38 | an unknown key gets a new empty history stored under it; a known key's history is returned unchanged; the table becomes WithSession of the old table, and the paired-history invariant is kept |
| Server.ChatServer.HandleChat | index.js:30-93 | the new table and the response are exactly Step applied to the old table and to the gateway's outcome on the payload composed from the instruction, the knowledge text, the session's prior history and the message; the paired-history invariant is kept |

## Left out

- HTTP glue is not modelled: Express setup, static files, JSON body parsing and
  `res.json`/`res.status` (index.js:2-22). A response is modelled only as its
  status and its `reply`.
- The Gemini SDK, the model name and the API key (index.js:4, 13-14) are not
  modelled. The gateway is an arbitrary function from the payload to an
  optional reply, so nothing is assumed about what it answers.
- Loading the knowledge file and the startup ordering (index.js:97-108) are
  not modelled. `fileReader.js` is not part of this model. The knowledge text
  is a constructor argument, fixed before any request.
- Port and environment configuration (index.js:9-11) are not modelled.
- The session key is an opaque string parameter. Deriving it from `req.ip`
  (index.js:33) is not modelled.
- `chatHistories` is a plain JavaScript object, so a key such as
  `constructor` would find an inherited member and not an empty history. The
  model uses a map with no inherited keys. A client address never has such
  a name.
- A `message` holding a non-string JSON value (a number or an object) is not
  modelled. Text is either a string or absent.
- With a runtime where `req.body` is itself undefined, reading `message`
  throws and yields the 500 reply. This path is not modelled separately.
- The wording of the persona instruction (index.js:43-58) is an opaque
  constructor argument. Its fallback-sentence rule is enforced by the
  language model, not by the code.
- Concurrency is not modelled. Two same-key requests can interleave across
  the `await` at index.js:79, and the model treats each request as atomic.
- The `history` local of index.js:38 aliases the map entry. The model writes
  through the map entry instead, which has the same effect while a request
  runs atomically.
- Logging with `console.error` (index.js:90) is not modelled.
- The browser client (`public/js/chatbot.js`) and the command-line variant
  are not modelled. They are not part of the web server's handler.
