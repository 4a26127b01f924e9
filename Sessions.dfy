/** The `/chat` handler as a pure step over the table of session histories,
    and what follows from it for a run of requests: exact growth per exchange,
    no change on failure, alternating roles, and isolation between sessions. */
module Sessions {
  import opened Conversation

  /** The reply sent with status 500 when anything in the handler throws. */
  const ErrorReply := "Lo siento, ocurrió un error en el servidor."

  const StatusOk := 200
  const StatusServerError := 500

  /** The HTTP answer, reduced to its status and the `reply` field of its body. */
  datatype Response = Response(status: int, reply: string)

  /** `chatHistories`: session key to that session's turns. */
  type Histories = map<string, seq<Turn>>

  /** The session's history as the handler sees it after get-or-create. */
  function Lookup(histories: Histories, key: string): seq<Turn> {
    if key in histories then histories[key] else []
  }

  /** The table after get-or-create: an absent key gets an empty history, a
      present key keeps its own, and no other entry is touched. */
  function WithSession(histories: Histories, key: string): (r: Histories)
    ensures r.Keys == histories.Keys + {key}
    ensures key in histories ==> r == histories
    ensures key !in histories ==> r[key] == []
    ensures forall k :: k in histories ==> r[k] == histories[k]
  {
    if key in histories then histories else histories[key := []]
  }

  /** The history after the gateway answered (or threw): on a reply the user
      turn and then the model turn are appended, on a failure nothing is. */
  function Commit(history: seq<Turn>, message: Text, outcome: Option<string>): (r: seq<Turn>)
    ensures outcome.None? ==> r == history
    ensures outcome.Some? ==> && |r| == |history| + 2
                              && r[..|history|] == history
                              && r[|history|] == Turn(User, message)
                              && r[|history| + 1] == Turn(Model, Defined(outcome.value))
  {
    match outcome
    case None => history
    case Some(reply) => history + [Turn(User, message), Turn(Model, Defined(reply))]
  }

  datatype Handled = Handled(histories: Histories, response: Response)

  /** One request: get-or-create, then commit on a reply and answer with it,
      or answer with the fixed error on a failure. */
  function Step(histories: Histories, key: string, message: Text, outcome: Option<string>)
    : (r: Handled)
    ensures r.histories.Keys == histories.Keys + {key}
    ensures forall k :: k in histories && k != key ==> r.histories[k] == histories[k]
    ensures outcome.Some? ==> && r.histories[key] == Lookup(histories, key)
                                                    + [Turn(User, message), Turn(Model, Defined(outcome.value))]
                              && r.response == Response(StatusOk, outcome.value)
    ensures outcome.None? ==> && r.histories[key] == Lookup(histories, key)
                              && r.response == Response(StatusServerError, ErrorReply)
  {
    var created := WithSession(histories, key);
    var response := match outcome
      case Some(reply) => Response(StatusOk, reply)
      case None => Response(StatusServerError, ErrorReply);
    Handled(created[key := Commit(created[key], message, outcome)], response)
  }

  /** A request as seen by the core: its session key, its message and what
      the gateway did with its payload. */
  datatype Request = Request(key: string, message: Text, outcome: Option<string>)

  /** The table after serving the requests one after the other. */
  function Run(histories: Histories, requests: seq<Request>): Histories
    decreases |requests|
  {
    if requests == [] then histories
    else
      var r := requests[0];
      Run(Step(histories, r.key, r.message, r.outcome).histories, requests[1..])
  }

  /** The requests that name session `key`, in their original order. */
  function Only(requests: seq<Request>, key: string): (r: seq<Request>)
    ensures |r| <= |requests|
    ensures forall i :: 0 <= i < |r| ==> r[i].key == key
  {
    if requests == [] then []
    else (if requests[0].key == key then [requests[0]] else []) + Only(requests[1..], key)
  }

  /** One session's history after its own requests. */
  function Replay(history: seq<Turn>, requests: seq<Request>): seq<Turn>
    decreases |requests|
  {
    if requests == [] then history
    else Replay(Commit(history, requests[0].message, requests[0].outcome), requests[1..])
  }

  /** The turns that the successful requests among `requests` contribute. */
  function Transcript(requests: seq<Request>): seq<Turn>
    decreases |requests|
  {
    if requests == [] then []
    else Commit([], requests[0].message, requests[0].outcome) + Transcript(requests[1..])
  }

  /** How many of the requests got a reply from the gateway. */
  function Successes(requests: seq<Request>): (n: nat)
    ensures n <= |requests|
  {
    if requests == [] then 0
    else (if requests[0].outcome.Some? then 1 else 0) + Successes(requests[1..])
  }

  /** Every session history in the table holds complete exchanges only. */
  ghost predicate AllPaired(histories: Histories) {
    forall k :: k in histories ==> Paired(histories[k])
  }

  /** Histories only grow at the end: replaying requests appends their
      transcript to what was there. */
  lemma {:induction false} ReplayAppends(history: seq<Turn>, requests: seq<Request>)
    ensures Replay(history, requests) == history + Transcript(requests)
    decreases |requests|
  {
    if requests != [] {
      var r := requests[0];
      ReplayAppends(Commit(history, r.message, r.outcome), requests[1..]);
      assert Commit(history, r.message, r.outcome) == history + Commit([], r.message, r.outcome);
    }
  }

  /** Each successful exchange contributes exactly two turns, each failure none. */
  lemma {:induction false} TranscriptLength(requests: seq<Request>)
    ensures |Transcript(requests)| == 2 * Successes(requests)
    decreases |requests|
  {
    if requests != [] {
      TranscriptLength(requests[1..]);
    }
  }

  lemma PairedConcat(a: seq<Turn>, b: seq<Turn>)
    requires Paired(a) && Paired(b)
    ensures Paired(a + b)
  {
    var c := a + b;
    forall i | |a| <= i < |c|
      ensures c[i].role == RoleAt(i) && (i % 2 == 1 ==> c[i].text.Defined?)
    {
      assert c[i] == b[i - |a|];
      assert RoleAt(i) == RoleAt(i - |a|);
    }
  }

  /** A transcript alternates user and model turns, starting with the user. */
  lemma {:induction false} TranscriptPaired(requests: seq<Request>)
    ensures Paired(Transcript(requests))
    decreases |requests|
  {
    if requests != [] {
      TranscriptPaired(requests[1..]);
      var r := requests[0];
      PairedConcat(Commit([], r.message, r.outcome), Transcript(requests[1..]));
    }
  }

  /** When every request succeeds, exchange i occupies positions 2i and 2i+1:
      the user's message, then the gateway's reply. */
  lemma {:induction false} TranscriptOfReplies(requests: seq<Request>, i: nat)
    requires forall j :: 0 <= j < |requests| ==> requests[j].outcome.Some?
    requires i < |requests|
    ensures |Transcript(requests)| == 2 * |requests|
    ensures Transcript(requests)[2 * i] == Turn(User, requests[i].message)
    ensures Transcript(requests)[2 * i + 1] == Turn(Model, Defined(requests[i].outcome.value))
    decreases |requests|
  {
    TranscriptLength(requests);
    AllRepliesCount(requests);
    if i > 0 {
      TranscriptOfReplies(requests[1..], i - 1);
    }
  }

  lemma {:induction false} AllRepliesCount(requests: seq<Request>)
    requires forall j :: 0 <= j < |requests| ==> requests[j].outcome.Some?
    ensures Successes(requests) == |requests|
    decreases |requests|
  {
    if requests != [] {
      AllRepliesCount(requests[1..]);
    }
  }

  /** Isolation: a session's history after any interleaving of requests is
      what its own requests alone make of it. */
  lemma {:induction false} RunIsolation(histories: Histories, requests: seq<Request>, key: string)
    ensures Lookup(Run(histories, requests), key) == Replay(Lookup(histories, key), Only(requests, key))
    decreases |requests|
  {
    if requests != [] {
      var r := requests[0];
      var next := Step(histories, r.key, r.message, r.outcome).histories;
      RunIsolation(next, requests[1..], key);
      if r.key == key {
        assert Only(requests, key) == [r] + Only(requests[1..], key);
        assert Lookup(next, key) == Commit(Lookup(histories, key), r.message, r.outcome);
      } else {
        assert Only(requests, key) == Only(requests[1..], key);
        assert Lookup(next, key) == Lookup(histories, key);
      }
    }
  }

  /** A session's history after a run: its earlier turns, then two turns for
      each of its requests that got a reply, and it stays paired. */
  lemma SessionAfterRun(histories: Histories, requests: seq<Request>, key: string)
    requires Paired(Lookup(histories, key))
    ensures var h := Lookup(Run(histories, requests), key);
            && h == Lookup(histories, key) + Transcript(Only(requests, key))
            && |h| == |Lookup(histories, key)| + 2 * Successes(Only(requests, key))
            && Paired(h)
  {
    RunIsolation(histories, requests, key);
    ReplayAppends(Lookup(histories, key), Only(requests, key));
    TranscriptLength(Only(requests, key));
    TranscriptPaired(Only(requests, key));
    PairedConcat(Lookup(histories, key), Transcript(Only(requests, key)));
  }

  /** N successful exchanges on a new session key leave exactly 2N turns,
      user and model alternating, each pair holding that exchange's message
      and reply, whatever other sessions did in between. */
  lemma NewSessionExchanges(histories: Histories, requests: seq<Request>, key: string, i: nat)
    requires key !in histories
    requires forall j :: 0 <= j < |requests| && requests[j].key == key ==> requests[j].outcome.Some?
    requires i < |Only(requests, key)|
    ensures var h := Lookup(Run(histories, requests), key);
            var mine := Only(requests, key);
            && |h| == 2 * |mine|
            && Paired(h)
            && h[2 * i] == Turn(User, mine[i].message)
            && mine[i].outcome.Some?
            && h[2 * i + 1] == Turn(Model, Defined(mine[i].outcome.value))
  {
    var mine := Only(requests, key);
    OnlyReplies(requests, key);
    SessionAfterRun(histories, requests, key);
    TranscriptOfReplies(mine, i);
  }

  lemma {:induction false} OnlyReplies(requests: seq<Request>, key: string)
    requires forall j :: 0 <= j < |requests| && requests[j].key == key ==> requests[j].outcome.Some?
    ensures forall j :: 0 <= j < |Only(requests, key)| ==> Only(requests, key)[j].outcome.Some?
    decreases |requests|
  {
    if requests != [] {
      OnlyReplies(requests[1..], key);
      var rest := Only(requests[1..], key);
      if requests[0].key == key {
        assert Only(requests, key) == [requests[0]] + rest;
      } else {
        assert Only(requests, key) == rest;
      }
    }
  }

  /** The table's invariant: serving any requests keeps every history paired. */
  lemma {:induction false} RunKeepsPaired(histories: Histories, requests: seq<Request>)
    requires AllPaired(histories)
    ensures AllPaired(Run(histories, requests))
    decreases |requests|
  {
    if requests != [] {
      var r := requests[0];
      var next := Step(histories, r.key, r.message, r.outcome).histories;
      StepKeepsPaired(histories, r.key, r.message, r.outcome);
      RunKeepsPaired(next, requests[1..]);
    }
  }

  /** One request keeps every history paired, whether the gateway replied or failed. */
  lemma StepKeepsPaired(histories: Histories, key: string, message: Text, outcome: Option<string>)
    requires AllPaired(histories)
    ensures AllPaired(Step(histories, key, message, outcome).histories)
  {
    var after := Step(histories, key, message, outcome).histories;
    forall k | k in after
      ensures Paired(after[k])
    {
      if k == key {
        var pair := Commit([], message, outcome);
        PairedConcat(Lookup(histories, key), pair);
        assert after[k] == Lookup(histories, key) + pair;
      } else {
        assert after[k] == histories[k];
      }
    }
  }
}
