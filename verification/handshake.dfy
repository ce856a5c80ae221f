/** The three-message handshake (internal/torutils/torutils.go): interleaved runs
    of honest nodes over a wire that delivers whatever it likes. */
module Handshake {
  import opened Options
  import opened Text

  /** A line as its blank-separated fields. */
  type Line = seq<string>

  predicate Word(s: string) {
    ' ' !in s && '\n' !in s
  }

  /** What readConnUntilLF and the split at blanks can yield. */
  ghost predicate IsLine(l: Line) {
    l != [] && forall i | 0 <= i < |l| :: Word(l[i])
  }

  function Wire(l: Line): string {
    Join(l, ' ')
  }

  /** A text determines its fields, so that a signed text is a signed line. */
  lemma WireInjective(a: Line, b: Line)
    requires IsLine(a) && IsLine(b) && Wire(a) == Wire(b)
    ensures a == b
  {
    SplitJoin(a, ' ');
    SplitJoin(b, ' ');
  }

  /** Keys and signatures in their hexadecimal encodings.  keyOf decodes: several
      spellings may name one key. */
  datatype Crypto = Crypto(pubHex: nat -> string, keyOf: string -> Option<nat>, torId: nat -> string,
                           sign: (nat, string) -> string, verify: (nat, string, string) -> bool)

  /** Encodings are words, signing is undone by verifying, and a public key is not
      a signature: it is half as long. */
  ghost predicate Sound(c: Crypto) {
    && (forall k: nat :: Word(c.pubHex(k)) && Word(c.torId(k)) && c.keyOf(c.pubHex(k)) == Some(k))
    && (forall k: nat, t :: Word(c.sign(k, t)) && c.verify(k, t, c.sign(k, t)))
    && (forall k: nat, t, j: nat :: !c.verify(k, t, c.pubHex(j)))
  }

  // ---- messages -------------------------------------------------------------

  /** What a client signs first: its key, its id and its nonce. */
  function Asked(c: Crypto, key: nat, nonce: string): Line {
    [c.pubHex(key), c.torId(key), nonce]
  }

  function Request(c: Crypto, key: nat, nonce: string): Line {
    Asked(c, key, nonce) + [c.sign(key, Wire(Asked(c, key, nonce)))]
  }

  /** The server's tests of a request. */
  predicate Admits(c: Crypto, request: Line) {
    && |request| == 4 && c.keyOf(request[0]).Some?
    && request[1] == c.torId(c.keyOf(request[0]).value)
    && c.verify(c.keyOf(request[0]).value, Wire(request[..3]), request[3])
  }

  /** The server's fields carry its own key but the id of the client. */
  function Offered(c: Crypto, key: nat, request: Line, nonce: string): Line
    requires Admits(c, request)
  {
    [c.pubHex(key), c.torId(c.keyOf(request[0]).value), nonce]
  }

  function Answer(c: Crypto, key: nat, request: Line, nonce: string): Line
    requires Admits(c, request)
  {
    Offered(c, key, request, nonce) + [c.sign(key, Wire(Offered(c, key, request, nonce) + request))]
  }

  /** The client's tests of a response to its request. */
  predicate Trusts(c: Crypto, request: Line, response: Line) {
    && |response| >= 4 && c.keyOf(response[0]).Some?
    && c.verify(c.keyOf(response[0]).value, Wire(response[..3] + request), response[3])
  }

  // ---- runs -----------------------------------------------------------------

  /** dialled is the key whose address the run dialled; no test looks at it. */
  datatype ClientRun = ClientRun(key: nat, dialled: nat, nonce: string, response: Option<Line>, done: bool)

  datatype ServerRun = ServerRun(key: nat, request: Line, nonce: string, accepted: bool)

  /** All runs of honest nodes so far, and every line an honest key has signed. */
  datatype World = World(clients: seq<ClientRun>, servers: seq<ServerRun>, signed: set<(nat, Line)>)

  const EMPTY := World([], [], {})

  /** Steps of honest nodes.  Each line read is the wire's choice; a run whose test
      fails takes no further step.  Elsewhere is any other use of a key, on a text
      that is no line, as article headers are not. */
  datatype Step =
    | Ask(key: nat, dialled: nat, nonce: string)
    | Serve(key: nat, request: Line, nonce: string)
    | Reply(i: nat, response: Line)
    | Finish(j: nat, proof: string)
    | Conclude(i: nat)
    | Elsewhere(key: nat, text: Line)

  function RequestOf(c: Crypto, r: ClientRun): Line {
    Request(c, r.key, r.nonce)
  }

  function PeerOf(c: Crypto, r: ServerRun): nat
    requires Admits(c, r.request)
  {
    c.keyOf(r.request[0]).value
  }

  function AnswerOf(c: Crypto, r: ServerRun): Line
    requires Admits(c, r.request)
  {
    Answer(c, r.key, r.request, r.nonce)
  }

  ghost predicate NewNonce(w: World, nonce: string) {
    && Word(nonce)
    && (forall i | 0 <= i < |w.clients| :: w.clients[i].nonce != nonce)
    && (forall j | 0 <= j < |w.servers| :: w.servers[j].nonce != nonce)
  }

  /** Ideal signatures: an honest key's signature verifies only on a line that key
      has signed. */
  predicate Vouched(honest: set<nat>, w: World, key: nat, line: Line) {
    key in honest ==> (key, line) in w.signed
  }

  ghost predicate Possible(c: Crypto, honest: set<nat>, w: World, s: Step) {
    match s
    case Ask(key, _, nonce) => key in honest && NewNonce(w, nonce)
    case Serve(key, request, nonce) =>
      && key in honest && NewNonce(w, nonce) && IsLine(request) && Admits(c, request)
      && Vouched(honest, w, c.keyOf(request[0]).value, request[..3])
    case Reply(i, response) =>
      && i < |w.clients| && w.clients[i].response.None? && IsLine(response)
      && Trusts(c, RequestOf(c, w.clients[i]), response)
      && Vouched(honest, w, c.keyOf(response[0]).value, response[..3] + RequestOf(c, w.clients[i]))
    case Finish(j, proof) =>
      && j < |w.servers| && !w.servers[j].accepted && Admits(c, w.servers[j].request)
      && c.verify(PeerOf(c, w.servers[j]), Wire(AnswerOf(c, w.servers[j])), proof)
      && Vouched(honest, w, PeerOf(c, w.servers[j]), AnswerOf(c, w.servers[j]))
    case Conclude(i) => i < |w.clients| && w.clients[i].response.Some?
    case Elsewhere(key, text) => key in honest && !IsLine(text)
  }

  function After(c: Crypto, w: World, s: Step): World {
    match s
    case Ask(key, dialled, nonce) =>
      World(w.clients + [ClientRun(key, dialled, nonce, None, false)], w.servers, w.signed + {(key, Asked(c, key, nonce))})
    case Serve(key, request, nonce) =>
      if Admits(c, request)
      then World(w.clients, w.servers + [ServerRun(key, request, nonce, false)],
                 w.signed + {(key, Offered(c, key, request, nonce) + request)})
      else w
    case Reply(i, response) =>
      if i < |w.clients|
      then World(w.clients[i := w.clients[i].(response := Some(response))], w.servers,
                 w.signed + {(w.clients[i].key, response)})
      else w
    case Finish(j, proof) =>
      if j < |w.servers| then w.(servers := w.servers[j := w.servers[j].(accepted := true)]) else w
    case Conclude(i) =>
      if i < |w.clients| then w.(clients := w.clients[i := w.clients[i].(done := true)]) else w
    case Elsewhere(key, text) => w.(signed := w.signed + {(key, text)})
  }

  ghost predicate IsRun(c: Crypto, honest: set<nat>, w: World, steps: seq<Step>)
    decreases |steps|
  {
    steps == [] || (Possible(c, honest, w, steps[0]) && IsRun(c, honest, After(c, w, steps[0]), steps[1..]))
  }

  function Final(c: Crypto, w: World, steps: seq<Step>): World
    decreases |steps|
  {
    if steps == [] then w else Final(c, After(c, w, steps[0]), steps[1..])
  }

  // ---- the invariant --------------------------------------------------------

  ghost predicate ClientOk(c: Crypto, honest: set<nat>, w: World, r: ClientRun) {
    && r.key in honest && Word(r.nonce)
    && (r.response.Some? ==>
          && IsLine(r.response.value) && Trusts(c, RequestOf(c, r), r.response.value)
          && Vouched(honest, w, c.keyOf(r.response.value[0]).value, r.response.value[..3] + RequestOf(c, r)))
  }

  ghost predicate ServerOk(c: Crypto, honest: set<nat>, w: World, r: ServerRun) {
    && r.key in honest && Word(r.nonce) && IsLine(r.request) && Admits(c, r.request)
    && Vouched(honest, w, PeerOf(c, r), r.request[..3])
    && (r.accepted ==> Vouched(honest, w, PeerOf(c, r), AnswerOf(c, r)))
  }

  ghost predicate RunsOk(c: Crypto, honest: set<nat>, w: World) {
    && (forall i | 0 <= i < |w.clients| :: ClientOk(c, honest, w, w.clients[i]))
    && (forall j | 0 <= j < |w.servers| :: ServerOk(c, honest, w, w.servers[j]))
  }

  ghost predicate NoncesDistinct(w: World) {
    && (forall i, k | 0 <= i < k < |w.clients| :: w.clients[i].nonce != w.clients[k].nonce)
    && (forall i, k | 0 <= i < k < |w.servers| :: w.servers[i].nonce != w.servers[k].nonce)
  }

  ghost predicate FromAsking(c: Crypto, w: World, key: nat, line: Line) {
    exists i | 0 <= i < |w.clients| :: w.clients[i].key == key && line == Asked(c, key, w.clients[i].nonce)
  }

  predicate AnsweredBy(c: Crypto, r: ServerRun, key: nat, line: Line) {
    r.key == key && Admits(c, r.request) && line == Offered(c, key, r.request, r.nonce) + r.request
  }

  ghost predicate FromAnswering(c: Crypto, w: World, key: nat, line: Line) {
    exists j | 0 <= j < |w.servers| :: AnsweredBy(c, w.servers[j], key, line)
  }

  ghost predicate FromReplying(w: World, key: nat, line: Line) {
    exists i | 0 <= i < |w.clients| :: w.clients[i].key == key && w.clients[i].response == Some(line)
  }

  /** Every signed line was signed at one of the three places the protocol signs. */
  ghost predicate Origins(c: Crypto, w: World) {
    forall p | p in w.signed && IsLine(p.1) ::
      FromAsking(c, w, p.0, p.1) || FromAnswering(c, w, p.0, p.1) || FromReplying(w, p.0, p.1)
  }

  ghost predicate Inv(c: Crypto, honest: set<nat>, w: World) {
    RunsOk(c, honest, w) && NoncesDistinct(w) && Origins(c, w)
  }

  lemma RunsOkStep(c: Crypto, honest: set<nat>, w: World, s: Step)
    requires RunsOk(c, honest, w) && Possible(c, honest, w, s)
    ensures RunsOk(c, honest, After(c, w, s))
  {
  }

  lemma NoncesStep(c: Crypto, honest: set<nat>, w: World, s: Step)
    requires NoncesDistinct(w) && Possible(c, honest, w, s)
    ensures NoncesDistinct(After(c, w, s))
  {
  }

  /** Runs only grow: an origin stays one. */
  lemma OriginKept(c: Crypto, honest: set<nat>, w: World, s: Step, key: nat, line: Line)
    requires Possible(c, honest, w, s)
    requires FromAsking(c, w, key, line) || FromAnswering(c, w, key, line) || FromReplying(w, key, line)
    ensures var v := After(c, w, s); FromAsking(c, v, key, line) || FromAnswering(c, v, key, line) || FromReplying(v, key, line)
  {
    var v := After(c, w, s);
    if FromAsking(c, w, key, line) {
      var i :| 0 <= i < |w.clients| && w.clients[i].key == key && line == Asked(c, key, w.clients[i].nonce);
      assert v.clients[i].key == key && v.clients[i].nonce == w.clients[i].nonce;
    } else if FromAnswering(c, w, key, line) {
      var j :| 0 <= j < |w.servers| && AnsweredBy(c, w.servers[j], key, line);
      assert AnsweredBy(c, v.servers[j], key, line);
    } else {
      var i :| 0 <= i < |w.clients| && w.clients[i].key == key && w.clients[i].response == Some(line);
      assert v.clients[i].key == key && v.clients[i].response == Some(line);
    }
  }

  lemma OriginsStep(c: Crypto, honest: set<nat>, w: World, s: Step)
    requires Origins(c, w) && Possible(c, honest, w, s)
    ensures Origins(c, After(c, w, s))
  {
    var v := After(c, w, s);
    forall p | p in v.signed && IsLine(p.1)
      ensures FromAsking(c, v, p.0, p.1) || FromAnswering(c, v, p.0, p.1) || FromReplying(v, p.0, p.1)
    {
      if p in w.signed {
        OriginKept(c, honest, w, s, p.0, p.1);
      } else {
        match s
        case Ask(key, dialled, nonce) => assert v.clients[|w.clients|] == ClientRun(key, dialled, nonce, None, false);
        case Serve(key, request, nonce) => assert AnsweredBy(c, v.servers[|w.servers|], key, p.1);
        case Reply(i, response) => assert v.clients[i].key == p.0 && v.clients[i].response == Some(p.1);
        case _ =>
      }
    }
  }

  lemma {:induction false} RunKeeps(c: Crypto, honest: set<nat>, w: World, steps: seq<Step>)
    requires Inv(c, honest, w) && IsRun(c, honest, w, steps)
    ensures Inv(c, honest, Final(c, w, steps))
    decreases |steps|
  {
    if steps != [] {
      RunsOkStep(c, honest, w, steps[0]);
      NoncesStep(c, honest, w, steps[0]);
      OriginsStep(c, honest, w, steps[0]);
      RunKeeps(c, honest, After(c, w, steps[0]), steps[1..]);
    }
  }

  lemma Reachable(c: Crypto, honest: set<nat>, steps: seq<Step>)
    requires IsRun(c, honest, EMPTY, steps)
    ensures Inv(c, honest, Final(c, EMPTY, steps))
  {
    assert Inv(c, honest, EMPTY);
    RunKeeps(c, honest, EMPTY, steps);
  }

  // ---- agreement ------------------------------------------------------------

  lemma RequestIsLine(c: Crypto, r: ClientRun)
    requires Sound(c) && Word(r.nonce)
    ensures IsLine(RequestOf(c, r))
  {
  }

  /** A server's text that an honest server key has signed comes from a run of that
      server on that very request. */
  lemma ServerTextOrigin(c: Crypto, honest: set<nat>, w: World, i: nat, key: nat, offer: Line) returns (j: nat)
    requires Sound(c) && Inv(c, honest, w) && i < |w.clients|
    requires |offer| == 3 && IsLine(offer) && (key, offer + RequestOf(c, w.clients[i])) in w.signed
    ensures j < |w.servers| && w.servers[j].key == key && w.servers[j].request == RequestOf(c, w.clients[i])
    ensures Admits(c, w.servers[j].request) && offer == Offered(c, key, w.servers[j].request, w.servers[j].nonce)
  {
    var request := RequestOf(c, w.clients[i]);
    var text := offer + request;
    assert ClientOk(c, honest, w, w.clients[i]);
    RequestIsLine(c, w.clients[i]);
    assert IsLine(text);
    assert |text| == 7;
    assert text[3] == c.pubHex(w.clients[i].key);
    forall k | 0 <= k < |w.clients| ensures w.clients[k].response != Some(text) {
      assert ClientOk(c, honest, w, w.clients[k]);
    }
    assert !FromAsking(c, w, key, text);
    assert FromAnswering(c, w, key, text);
    j :| 0 <= j < |w.servers| && AnsweredBy(c, w.servers[j], key, text);
    var o := Offered(c, key, w.servers[j].request, w.servers[j].nonce);
    assert text[..3] == offer && text[..3] == o && text[3..] == request && text[3..] == w.servers[j].request;
  }

  /** Client run i sent the request that server run j read, and answered with a
      signature of exactly the line that j sent. */
  ghost predicate Matches(c: Crypto, w: World, i: nat, j: nat) {
    && i < |w.clients| && j < |w.servers| && Admits(c, w.servers[j].request)
    && w.clients[i].key == PeerOf(c, w.servers[j])
    && RequestOf(c, w.clients[i]) == w.servers[j].request
    && w.clients[i].response == Some(AnswerOf(c, w.servers[j]))
  }

  /** No other client run sent this request, and no other server run matches. */
  ghost predicate OnlyPair(c: Crypto, w: World, i: nat, j: nat)
    requires j < |w.servers|
  {
    && (forall k | 0 <= k < |w.clients| && RequestOf(c, w.clients[k]) == w.servers[j].request :: k == i)
    && (forall k | 0 <= k < |w.servers| && Matches(c, w, i, k) :: k == j)
  }

  lemma RequestNonce(c: Crypto, a: ClientRun, b: ClientRun)
    requires RequestOf(c, a) == RequestOf(c, b)
    ensures a.nonce == b.nonce
  {
    assert RequestOf(c, a)[2] == a.nonce && RequestOf(c, b)[2] == b.nonce;
  }

  lemma AnswerNonce(c: Crypto, a: ServerRun, b: ServerRun)
    requires Admits(c, a.request) && Admits(c, b.request) && AnswerOf(c, a) == AnswerOf(c, b)
    ensures a.nonce == b.nonce
  {
    assert AnswerOf(c, a)[2] == a.nonce && AnswerOf(c, b)[2] == b.nonce;
  }

  lemma MatchIsOnly(c: Crypto, w: World, i: nat, j: nat)
    requires NoncesDistinct(w) && Matches(c, w, i, j)
    ensures OnlyPair(c, w, i, j)
  {
    forall k | 0 <= k < |w.clients| && RequestOf(c, w.clients[k]) == w.servers[j].request ensures k == i {
      RequestNonce(c, w.clients[k], w.clients[i]);
    }
    forall k | 0 <= k < |w.servers| && Matches(c, w, i, k) ensures k == j {
      AnswerNonce(c, w.servers[k], w.servers[j]);
    }
  }

  lemma AcceptedMatches(c: Crypto, honest: set<nat>, w: World, j: nat) returns (i: nat)
    requires Sound(c) && Inv(c, honest, w) && j < |w.servers| && w.servers[j].accepted
    requires Admits(c, w.servers[j].request) && PeerOf(c, w.servers[j]) in honest
    ensures Matches(c, w, i, j)
  {
    var r := w.servers[j];
    var peer, line := PeerOf(c, r), AnswerOf(c, r);
    assert ServerOk(c, honest, w, r);
    assert (peer, line) in w.signed;
    assert IsLine(line);
    assert |line| == 4;
    assert !FromAsking(c, w, peer, line) && !FromAnswering(c, w, peer, line);
    assert FromReplying(w, peer, line);
    i :| 0 <= i < |w.clients| && w.clients[i].key == peer && w.clients[i].response == Some(line);
    assert ClientOk(c, honest, w, w.clients[i]);
    var offer := line[..3];
    assert offer == Offered(c, r.key, r.request, r.nonce);
    assert line[0] == c.pubHex(r.key);
    assert (r.key, offer + RequestOf(c, w.clients[i])) in w.signed;
    var k := ServerTextOrigin(c, honest, w, i, r.key, offer);
    assert offer[2] == w.servers[k].nonce == r.nonce;
    assert k == j;
  }

  /** Server agreement: when a server run has accepted an honest client's key, then
      exactly one client run sent the request it read; that run is the client's,
      it signed exactly the line the server sent, and it serves no other server run. */
  lemma ServerAgreement(c: Crypto, honest: set<nat>, steps: seq<Step>, j: nat)
    requires Sound(c) && IsRun(c, honest, EMPTY, steps)
    requires var w := Final(c, EMPTY, steps);
             j < |w.servers| && w.servers[j].accepted && Admits(c, w.servers[j].request) && PeerOf(c, w.servers[j]) in honest
    ensures var w := Final(c, EMPTY, steps); exists i :: Matches(c, w, i, j) && OnlyPair(c, w, i, j)
  {
    var w := Final(c, EMPTY, steps);
    Reachable(c, honest, steps);
    var i := AcceptedMatches(c, honest, w, j);
    MatchIsOnly(c, w, i, j);
  }

  /** Server run j answered the request of client run i with these three fields. */
  ghost predicate Answers(c: Crypto, w: World, i: nat, j: nat) {
    && i < |w.clients| && j < |w.servers| && Admits(c, w.servers[j].request)
    && w.clients[i].response.Some? && |w.clients[i].response.value| >= 3
    && w.servers[j].request == RequestOf(c, w.clients[i])
    && PeerOf(c, w.servers[j]) == w.clients[i].key
    && w.clients[i].response.value[..3] == Offered(c, w.servers[j].key, w.servers[j].request, w.servers[j].nonce)
  }

  /** Client agreement: when a client run has passed its test on an honest server's
      key, then exactly one server run sent the fields it read, a run of that
      server, on this client run's own request. */
  lemma ClientAgreement(c: Crypto, honest: set<nat>, steps: seq<Step>, i: nat)
    requires Sound(c) && IsRun(c, honest, EMPTY, steps)
    requires var w := Final(c, EMPTY, steps);
             && i < |w.clients| && w.clients[i].response.Some? && w.clients[i].response.value != []
             && var key := c.keyOf(w.clients[i].response.value[0]); key.Some? && key.value in honest
    ensures var w := Final(c, EMPTY, steps);
            exists j: nat :: Answers(c, w, i, j) && w.servers[j].key == c.keyOf(w.clients[i].response.value[0]).value
                        && forall k | 0 <= k < |w.servers| && Answers(c, w, i, k) :: k == j
  {
    var w := Final(c, EMPTY, steps);
    Reachable(c, honest, steps);
    assert ClientOk(c, honest, w, w.clients[i]);
    var response := w.clients[i].response.value;
    var offer := response[..3];
    var j := ServerTextOrigin(c, honest, w, i, c.keyOf(response[0]).value, offer);
    assert c.keyOf(w.servers[j].request[0]) == Some(w.clients[i].key);
    assert Answers(c, w, i, j);
    forall k | 0 <= k < |w.servers| && Answers(c, w, i, k) ensures k == j {
      assert offer[2] == w.servers[k].nonce && offer[2] == w.servers[j].nonce;
    }
  }

  /** Both at once: a client run whose test passed on the fields of server run j,
      and j having accepted an honest key, are one session, line for line. */
  lemma MutualAgreement(c: Crypto, honest: set<nat>, steps: seq<Step>, i: nat, j: nat)
    requires Sound(c) && IsRun(c, honest, EMPTY, steps)
    requires var w := Final(c, EMPTY, steps);
             Answers(c, w, i, j) && w.servers[j].accepted && PeerOf(c, w.servers[j]) in honest
    ensures Matches(c, Final(c, EMPTY, steps), i, j)
  {
    var w := Final(c, EMPTY, steps);
    ServerAgreement(c, honest, steps, j);
    var k :| Matches(c, w, k, j) && OnlyPair(c, w, k, j);
    assert k == i;
  }

  // ---- an undisturbed run ---------------------------------------------------

  /** The five steps of a client and a server that hear each other. */
  function Undisturbed(c: Crypto, w: World, client: nat, dialled: nat, server: nat, mine: string, theirs: string): seq<Step>
    requires Admits(c, Request(c, client, mine))
  {
    var request := Request(c, client, mine);
    var answer := Answer(c, server, request, theirs);
    [Ask(client, dialled, mine), Serve(server, request, theirs), Reply(|w.clients|, answer),
     Finish(|w.servers|, c.sign(client, Wire(answer))), Conclude(|w.clients|)]
  }

  lemma RequestAdmitted(c: Crypto, key: nat, nonce: string)
    requires Sound(c)
    ensures Admits(c, Request(c, key, nonce))
    ensures Request(c, key, nonce)[..3] == Asked(c, key, nonce) && c.keyOf(Request(c, key, nonce)[0]) == Some(key)
  {
    assert Request(c, key, nonce)[..3] == Asked(c, key, nonce);
  }

  lemma AnswerTrusted(c: Crypto, key: nat, request: Line, nonce: string)
    requires Sound(c) && Admits(c, request)
    ensures Trusts(c, request, Answer(c, key, request, nonce))
    ensures Answer(c, key, request, nonce)[..3] == Offered(c, key, request, nonce)
  {
    assert Answer(c, key, request, nonce)[..3] == Offered(c, key, request, nonce);
  }

  lemma FirstHalf(c: Crypto, honest: set<nat>, w: World, client: nat, dialled: nat, server: nat, mine: string, theirs: string)
    requires Sound(c) && client in honest && server in honest
    requires NewNonce(w, mine) && NewNonce(w, theirs) && mine != theirs
    ensures Admits(c, Request(c, client, mine))
    ensures var request := Request(c, client, mine);
            var w1 := After(c, w, Ask(client, dialled, mine));
            var w2 := After(c, w1, Serve(server, request, theirs));
            && Possible(c, honest, w, Ask(client, dialled, mine)) && Possible(c, honest, w1, Serve(server, request, theirs))
            && w2.clients == w.clients + [ClientRun(client, dialled, mine, None, false)]
            && w2.servers == w.servers + [ServerRun(server, request, theirs, false)]
            && (server, Offered(c, server, request, theirs) + request) in w2.signed
  {
    RequestAdmitted(c, client, mine);
    var w1 := After(c, w, Ask(client, dialled, mine));
    assert (client, Asked(c, client, mine)) in w1.signed;
    assert w1.clients[|w.clients|].nonce == mine;
  }

  lemma SecondHalf(c: Crypto, honest: set<nat>, w: World, i: nat, j: nat)
    requires Sound(c) && i < |w.clients| && j < |w.servers|
    requires w.clients[i].response.None? && !w.servers[j].accepted
    requires Word(w.clients[i].nonce) && Word(w.servers[j].nonce)
    requires w.servers[j].request == RequestOf(c, w.clients[i])
    requires Admits(c, w.servers[j].request)
    requires (w.servers[j].key, Offered(c, w.servers[j].key, w.servers[j].request, w.servers[j].nonce) + w.servers[j].request) in w.signed
    ensures var answer := AnswerOf(c, w.servers[j]);
            var reply, finish := Reply(i, answer), Finish(j, c.sign(w.clients[i].key, Wire(answer)));
            var w1 := After(c, w, reply);
            var w2 := After(c, w1, finish);
            var w3 := After(c, w2, Conclude(i));
            && Possible(c, honest, w, reply) && Possible(c, honest, w1, finish) && Possible(c, honest, w2, Conclude(i))
            && Matches(c, w3, i, j) && w3.servers[j].accepted && w3.clients[i].done
  {
    var client, server := w.clients[i], w.servers[j];
    RequestAdmitted(c, client.key, client.nonce);
    AnswerTrusted(c, server.key, server.request, server.nonce);
    var answer := AnswerOf(c, server);
    assert IsLine(answer);
    assert answer[0] == c.pubHex(server.key);
    var w1 := After(c, w, Reply(i, answer));
    assert (client.key, answer) in w1.signed && w1.servers == w.servers;
  }

  lemma FiveSteps(c: Crypto, honest: set<nat>, w: World, s: seq<Step>)
    requires |s| == 5
    requires var w1 := After(c, w, s[0]); var w2 := After(c, w1, s[1]); var w3 := After(c, w2, s[2]); var w4 := After(c, w3, s[3]);
             && Possible(c, honest, w, s[0]) && Possible(c, honest, w1, s[1]) && Possible(c, honest, w2, s[2])
             && Possible(c, honest, w3, s[3]) && Possible(c, honest, w4, s[4])
    ensures IsRun(c, honest, w, s)
    ensures Final(c, w, s) == After(c, After(c, After(c, After(c, After(c, w, s[0]), s[1]), s[2]), s[3]), s[4])
  {
    var w1 := After(c, w, s[0]);
    var w2 := After(c, w1, s[1]);
    var w3 := After(c, w2, s[2]);
    var w4 := After(c, w3, s[3]);
    OneMore(c, honest, w4, s, 4);
    OneMore(c, honest, w3, s, 3);
    OneMore(c, honest, w2, s, 2);
    OneMore(c, honest, w1, s, 1);
    OneMore(c, honest, w, s, 0);
    assert s[0..] == s && s[5..] == [];
  }

  lemma OneMore(c: Crypto, honest: set<nat>, w: World, s: seq<Step>, k: nat)
    requires k < |s| && Possible(c, honest, w, s[k])
    ensures IsRun(c, honest, w, s[k..]) <==> IsRun(c, honest, After(c, w, s[k]), s[k + 1..])
    ensures Final(c, w, s[k..]) == Final(c, After(c, w, s[k]), s[k + 1..])
  {
    assert s[k..][1..] == s[k + 1..];
  }

  /** From any state, an honest client and an honest server that hear each other
      finish, whoever was dialled: every test passes, the server accepts, the client
      is done, and the two runs match. */
  lemma UndisturbedCompletes(c: Crypto, honest: set<nat>, w: World, client: nat, dialled: nat, server: nat, mine: string, theirs: string)
    requires Sound(c) && client in honest && server in honest
    requires NewNonce(w, mine) && NewNonce(w, theirs) && mine != theirs
    ensures Admits(c, Request(c, client, mine))
    ensures IsRun(c, honest, w, Undisturbed(c, w, client, dialled, server, mine, theirs))
    ensures var v := Final(c, w, Undisturbed(c, w, client, dialled, server, mine, theirs));
            && Matches(c, v, |w.clients|, |w.servers|)
            && v.servers[|w.servers|] == ServerRun(server, Request(c, client, mine), theirs, true)
            && |v.servers| == |w.servers| + 1
            && v.clients[|w.clients|].done && v.clients[|w.clients|].dialled == dialled
  {
    FirstHalf(c, honest, w, client, dialled, server, mine, theirs);
    var s := Undisturbed(c, w, client, dialled, server, mine, theirs);
    var w2 := After(c, After(c, w, s[0]), s[1]);
    assert w2.clients[|w.clients|] == ClientRun(client, dialled, mine, None, false);
    assert w2.servers[|w.servers|] == ServerRun(server, Request(c, client, mine), theirs, false);
    SecondHalf(c, honest, w2, |w.clients|, |w.servers|);
    FiveSteps(c, honest, w, s);
  }

  // ---- the dialled peer -----------------------------------------------------

  /** Server run j of the dialled key answered client run i. */
  ghost predicate DialledAnswers(c: Crypto, w: World, i: nat, j: nat) {
    Answers(c, w, i, j) && w.servers[j].key == w.clients[i].dialled
  }

  /** In every run, the peer a client run dialled has answered it if and only if the
      answer's first field decodes to the key that was dialled, the test that the
      client leaves out; and then that run of the peer is the only one that
      answered.  Nothing is asked of the node that did answer. */
  lemma DialledPeerAnswers(c: Crypto, honest: set<nat>, steps: seq<Step>, i: nat)
    requires Sound(c) && IsRun(c, honest, EMPTY, steps)
    requires var w := Final(c, EMPTY, steps);
             i < |w.clients| && w.clients[i].response.Some? && w.clients[i].dialled in honest
    ensures var w := Final(c, EMPTY, steps);
            && w.clients[i].response.value != []
            && var same := c.keyOf(w.clients[i].response.value[0]) == Some(w.clients[i].dialled);
               && (same <==> exists j: nat :: DialledAnswers(c, w, i, j))
               && (forall j, k | Answers(c, w, i, j) && Answers(c, w, i, k) && same :: j == k && DialledAnswers(c, w, i, j))
  {
    var w := Final(c, EMPTY, steps);
    Reachable(c, honest, steps);
    assert ClientOk(c, honest, w, w.clients[i]);
    var response := w.clients[i].response.value;
    forall j: nat | Answers(c, w, i, j) ensures c.keyOf(response[0]) == Some(w.servers[j].key) {
      assert response[..3][0] == response[0];
    }
    if c.keyOf(response[0]) == Some(w.clients[i].dialled) {
      ClientAgreement(c, honest, steps, i);
      var j: nat :| Answers(c, w, i, j) && w.servers[j].key == w.clients[i].dialled
                    && forall k | 0 <= k < |w.servers| && Answers(c, w, i, k) :: k == j;
      assert DialledAnswers(c, w, i, j);
    }
  }

  /** A client dials one peer, another node answers, and both are content: the
      client is done and the dialled peer took no part. */
  lemma WrongPeerTrusted(c: Crypto, honest: set<nat>, client: nat, dialled: nat, server: nat, mine: string, theirs: string)
    returns (steps: seq<Step>)
    requires Sound(c) && client in honest && server in honest && server != dialled
    requires Word(mine) && Word(theirs) && mine != theirs
    ensures IsRun(c, honest, EMPTY, steps)
    ensures var w := Final(c, EMPTY, steps);
            && Matches(c, w, 0, 0) && w.servers[0].accepted && w.clients[0].done
            && w.clients[0].dialled == dialled && w.servers[0].key == server
            && (forall j | 0 <= j < |w.servers| :: w.servers[j].key != dialled)
  {
    UndisturbedCompletes(c, honest, EMPTY, client, dialled, server, mine, theirs);
    steps := Undisturbed(c, EMPTY, client, dialled, server, mine, theirs);
  }
}
