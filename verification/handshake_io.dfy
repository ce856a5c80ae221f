/** The two ends of the handshake as they read and write a connection
    (internal/torutils/torutils.go). */
module HandshakeIo {
  import opened Options
  import opened Text
  import opened Handshake

  /** Fewer characters than this may come before an LF. */
  const LIMIT: nat := 1025

  function Least(a: nat, b: nat): nat {
    if a < b then a else b
  }

  /** The line at the front of the input, and what follows it; nothing when there
      is no LF among the first LIMIT characters. */
  function FrontLine(input: string): (r: Option<(string, string)>)
    ensures r.Some? ==> '\n' !in r.value.0 && |r.value.0| < LIMIT && input == r.value.0 + "\n" + r.value.1
    ensures r.Some? <==> '\n' in input[..Least(LIMIT, |input|)]
  {
    IndexSplits(input, '\n');
    var i := IndexOf(input, '\n');
    if i < |input| && i < LIMIT then
      assert input[..Least(LIMIT, |input|)][i] == '\n';
      Some((input[..i], input[i + 1..]))
    else
      assert input[..Least(LIMIT, |input|)] <= input[..i];
      None
  }

  /** What a failed read still returns: everything that came, up to the limit. */
  function LineText(input: string): string {
    match FrontLine(input)
    case Some(r) => r.0
    case None => input[..Least(LIMIT, |input|)]
  }

  /** A connection: what will arrive before it is closed, and what was sent. */
  class Conn {
    var input: string
    var output: string

    constructor (arriving: string)
      ensures input == arriving && output == ""
    {
      input, output := arriving, "";
    }

    method Write(s: string)
      modifies `output
      ensures output == old(output) + s
    {
      output := output + s;
    }

    /** readConnUntilLF, one character at a time. */
    method ReadUntilLf() returns (line: string, ok: bool)
      modifies `input
      ensures ok <==> FrontLine(old(input)).Some?
      ensures ok ==> line == FrontLine(old(input)).value.0 && input == FrontLine(old(input)).value.1
      ensures line == LineText(old(input))
      ensures !ok ==> input == old(input)[|line|..]
    {
      line := "";
      while true
        invariant |line| < LIMIT && '\n' !in line && old(input) == line + input
        decreases |input|
      {
        if input == "" {
          assert line == old(input);
          return line, false;
        }
        var c := input[0];
        input := input[1..];
        if c == '\n' {
          assert old(input) == line + "\n" + input;
          LineIsFront(line, input);
          return line, true;
        }
        assert old(input) == (line + [c]) + input;
        line := line + [c];
        if |line| >= LIMIT {
          assert old(input)[..LIMIT] == line;
          return line, false;
        }
      }
    }

    /** ServerHandshake: the key it accepts, if any, is one whose request was
        admitted and allowed and whose second line signs the answer it sent. */
    method ServerHandshake(c: Crypto, key: nat, allowed: nat -> bool, nonce: string) returns (peer: Option<nat>)
      modifies this
      ensures ServerDone(c, key, allowed, nonce, old(input), old(output), output, peer)
    {
      var text, ok := ReadUntilLf();
      if !ok {
        return None;
      }
      var request := Split(text, ' ');
      if |request| != 4 || c.keyOf(request[0]).None? {
        return None;
      }
      var client := c.keyOf(request[0]).value;
      if request[1] != c.torId(client) || !allowed(client) {
        return None;
      }
      if !c.verify(client, Join(request[..3], ' '), request[3]) {
        return None;
      }
      var offer := [c.pubHex(key), c.torId(client), nonce];
      var special := Join(offer + request, ' ');
      var answer := offer + [c.sign(key, special)];
      Write(Join(answer, ' ') + "\n");
      var proof, ok2 := ReadUntilLf();
      if !ok2 {
        return None;
      }
      if c.verify(client, Join(answer, ' '), proof) {
        Write("OK\n");
        return Some(client);
      }
      return None;
    }

    /** ClientHandshake: the key it trusts, if any, signed the answer to its own
        request, and the last line read was OK, terminated or not.  The address that
        was dialled plays no part. */
    method ClientHandshake(c: Crypto, key: nat, nonce: string, remoteAddr: string) returns (r: Outcome)
      modifies this
      ensures ClientDone(c, key, nonce, old(input), old(output), output, r)
    {
      var asked := [c.pubHex(key), c.torId(key), nonce];
      var request := asked + [c.sign(key, Join(asked, ' '))];
      Write(Join(request, ' ') + "\n");
      var text, ok := ReadUntilLf();
      if !ok {
        return Rejected;
      }
      var response := Split(text, ' ');
      if |response| < 4 || c.keyOf(response[0]).None? {
        return Panics;
      }
      var server := c.keyOf(response[0]).value;
      if !c.verify(server, Join(response[..3] + request, ' '), response[3]) {
        return Rejected;
      }
      JoinSplit(text, ' ');
      Write(c.sign(key, text) + "\n");
      text, ok := ReadUntilLf();
      if text == "OK" {
        return Trusted(server);
      }
      return Rejected;
    }
  }

  lemma LineIsFront(line: string, rest: string)
    requires '\n' !in line && |line| < LIMIT
    ensures FrontLine(line + "\n" + rest) == Some((line, rest))
  {
    IndexOfFirst(line, '\n', rest);
    var input := line + "\n" + rest;
    assert input[..|line|] == line && input[|line| + 1..] == rest;
  }

  datatype Outcome = Trusted(key: nat) | Rejected | Panics

  /** What the server sends and returns, by its reading of the input.  A key the
      source cannot decode ends the run without an acceptance. */
  ghost predicate ServerDone(c: Crypto, key: nat, allowed: nat -> bool, nonce: string,
                             input: string, before: string, after: string, peer: Option<nat>)
  {
    match FrontLine(input)
    case None => peer.None? && after == before
    case Some(first) =>
      var request := Split(first.0, ' ');
      if !Admits(c, request) || !allowed(c.keyOf(request[0]).value) then peer.None? && after == before
      else
        var client, answer := c.keyOf(request[0]).value, Answer(c, key, request, nonce);
        if FrontLine(first.1).Some? && c.verify(client, Wire(answer), FrontLine(first.1).value.0)
        then peer == Some(client) && after == before + (Wire(answer) + "\n") + "OK\n"
        else peer.None? && after == before + (Wire(answer) + "\n")
  }

  ghost predicate ClientDone(c: Crypto, key: nat, nonce: string, input: string, before: string, after: string, r: Outcome) {
    var request := Request(c, key, nonce);
    var sent := before + (Wire(request) + "\n");
    match FrontLine(input)
    case None => r == Rejected && after == sent
    case Some(first) =>
      var response := Split(first.0, ' ');
      if |response| < 4 || c.keyOf(response[0]).None? then r == Panics && after == sent
      else if !Trusts(c, request, response) then r == Rejected && after == sent
      else
        && after == sent + (c.sign(key, Wire(response)) + "\n")
        && r == if LineText(first.1) == "OK" then Trusted(c.keyOf(response[0]).value) else Rejected
  }

  /** What is read off a connection is a line of the protocol's steps. */
  lemma ReadsLines(input: string)
    requires FrontLine(input).Some?
    ensures IsLine(Split(FrontLine(input).value.0, ' ')) && Wire(Split(FrontLine(input).value.0, ' ')) == FrontLine(input).value.0
  {
    var text := FrontLine(input).value.0;
    JoinSplit(text, ' ');
    forall i | 0 <= i < |Split(text, ' ')| ensures Word(Split(text, ' ')[i]) {
      SplitPieces(text, ' ', i);
    }
  }

  // ---- the two ends take the protocol's steps ---------------------------------

  /** When ServerHandshake accepts a key, its two reads were a Serve step and later
      a Finish step, the key is that step's peer, and it sent that run's answer. */
  lemma AcceptTakesSteps(c: Crypto, honest: set<nat>, w: World, v: World, j: nat, key: nat, allowed: nat -> bool,
                         nonce: string, input: string, before: string, after: string, client: nat)
    requires ServerDone(c, key, allowed, nonce, input, before, after, Some(client))
    requires key in honest && NewNonce(w, nonce)
    requires var request := Split(FrontLine(input).value.0, ' ');
             && Vouched(honest, w, client, request[..3])
             && j < |v.servers| && v.servers[j] == ServerRun(key, request, nonce, false)
             && Vouched(honest, v, client, Answer(c, key, request, nonce))
    ensures var request := Split(FrontLine(input).value.0, ' ');
            && Possible(c, honest, w, Serve(key, request, nonce))
            && FrontLine(FrontLine(input).value.1).Some?
            && Possible(c, honest, v, Finish(j, FrontLine(FrontLine(input).value.1).value.0))
            && client == PeerOf(c, v.servers[j]) && allowed(client)
            && after == before + (Wire(AnswerOf(c, v.servers[j])) + "\n") + "OK\n"
  {
    ReadsLines(input);
  }

  /** When ClientHandshake trusts a key, its first read was a Reply step of the run
      that sent the request, and what it sent back signs exactly what it read. */
  lemma TrustTakesSteps(c: Crypto, honest: set<nat>, w: World, i: nat,
                        input: string, before: string, after: string, server: nat)
    requires i < |w.clients| && w.clients[i].response.None?
    requires ClientDone(c, w.clients[i].key, w.clients[i].nonce, input, before, after, Trusted(server))
    requires var response := Split(FrontLine(input).value.0, ' ');
             Vouched(honest, w, server, response[..3] + RequestOf(c, w.clients[i]))
    ensures var response := Split(FrontLine(input).value.0, ' ');
            && Possible(c, honest, w, Reply(i, response)) && c.keyOf(response[0]) == Some(server)
            && after == before + (Wire(RequestOf(c, w.clients[i])) + "\n")
                        + (c.sign(w.clients[i].key, FrontLine(input).value.0) + "\n")
  {
    ReadsLines(input);
  }
}
