/** The two ends of the handshake talking to each other, character by character
    (internal/torutils/torutils.go), and what each of them accepts. */
module HandshakeTalk {
  import opened Options
  import opened Text
  import opened Handshake
  import opened HandshakeIo

  // ---- how long a line may be -----------------------------------------------

  /** A line of up to 1024 characters is read, a longer one is not. */
  lemma LineLength(line: string, rest: string)
    requires '\n' !in line
    ensures |line| <= 1024 ==> FrontLine(line + "\n" + rest) == Some((line, rest))
    ensures |line| >= 1025 ==> FrontLine(line + "\n" + rest) == None
  {
    if |line| <= 1024 {
      LineIsFront(line, rest);
    } else {
      var input := line + "\n" + rest;
      assert input[..1025] == line[..1025];
    }
  }

  lemma NoLineEnd(input: string)
    requires '\n' !in input
    ensures FrontLine(input) == None
  {
  }

  // ---- what is sent ---------------------------------------------------------

  /** Keys, ids and signatures as they are written: 32, 35 and 64 bytes in
      hexadecimal and base32. */
  ghost predicate Sizes(c: Crypto) {
    && (forall k: nat :: |c.pubHex(k)| == 64 && |c.torId(k)| == 56)
    && (forall k: nat, t :: |c.sign(k, t)| == 128)
  }

  predicate Nonce(s: string) {
    |s| == 64 && Word(s)
  }

  function AskedText(c: Crypto, client: nat, nonce: string): string {
    c.pubHex(client) + " " + c.torId(client) + " " + nonce
  }

  function RequestText(c: Crypto, client: nat, nonce: string): string {
    AskedText(c, client, nonce) + " " + c.sign(client, AskedText(c, client, nonce))
  }

  /** The id in the answer is the client's. */
  function OfferText(c: Crypto, client: nat, server: nat, nonce: string): string {
    c.pubHex(server) + " " + c.torId(client) + " " + nonce
  }

  function AnswerText(c: Crypto, client: nat, server: nat, mine: string, theirs: string): string {
    OfferText(c, client, server, theirs) + " "
    + c.sign(server, OfferText(c, client, server, theirs) + " " + RequestText(c, client, mine))
  }

  lemma JoinThree(x: string, y: string, z: string)
    ensures Join([x, y, z], ' ') == x + " " + y + " " + z
  {
    assert [x, y, z][1..] == [y, z] && [y, z][1..] == [z];
    assert Join([y, z], ' ') == y + [' '] + Join([z], ' ');
    assert x + [' '] + (y + [' '] + z) == x + " " + y + " " + z;
  }

  lemma JoinFour(x: string, y: string, z: string, v: string)
    ensures Join([x, y, z, v], ' ') == x + " " + y + " " + z + " " + v
  {
    JoinThree(y, z, v);
    assert [x, y, z, v][1..] == [y, z, v];
    assert x + [' '] + (y + " " + z + " " + v) == x + " " + y + " " + z + " " + v;
  }

  lemma WireRequest(c: Crypto, client: nat, nonce: string)
    ensures Wire(Asked(c, client, nonce)) == AskedText(c, client, nonce)
    ensures Wire(Request(c, client, nonce)) == RequestText(c, client, nonce)
  {
    JoinThree(c.pubHex(client), c.torId(client), nonce);
    var signature := c.sign(client, AskedText(c, client, nonce));
    JoinFour(c.pubHex(client), c.torId(client), nonce, signature);
    assert Request(c, client, nonce) == [c.pubHex(client), c.torId(client), nonce, signature];
  }

  lemma WireAnswer(c: Crypto, client: nat, server: nat, mine: string, theirs: string)
    requires Sound(c) && Admits(c, Request(c, client, mine))
    ensures Wire(Answer(c, server, Request(c, client, mine), theirs)) == AnswerText(c, client, server, mine, theirs)
  {
    var request := Request(c, client, mine);
    var offer := Offered(c, server, request, theirs);
    WireRequest(c, client, mine);
    assert offer == [c.pubHex(server), c.torId(client), theirs];
    JoinThree(c.pubHex(server), c.torId(client), theirs);
    JoinConcat(offer, request, ' ');
    assert Wire(offer + request) == OfferText(c, client, server, theirs) + " " + RequestText(c, client, mine);
    var signature := c.sign(server, OfferText(c, client, server, theirs) + " " + RequestText(c, client, mine));
    JoinFour(c.pubHex(server), c.torId(client), theirs, signature);
    assert Answer(c, server, request, theirs) == [c.pubHex(server), c.torId(client), theirs, signature];
  }

  // ---- the two ends talk ----------------------------------------------------

  function Proof(c: Crypto, client: nat, server: nat, mine: string, theirs: string): string {
    c.sign(client, AnswerText(c, client, server, mine, theirs))
  }

  /** All that the client writes, and all that the server writes. */
  function ClientSays(c: Crypto, client: nat, server: nat, mine: string, theirs: string): string {
    RequestText(c, client, mine) + "\n" + (Proof(c, client, server, mine, theirs) + "\n")
  }

  function ServerSays(c: Crypto, client: nat, server: nat, mine: string, theirs: string): string {
    AnswerText(c, client, server, mine, theirs) + "\n" + "OK\n"
  }

  lemma LinesAreShort(c: Crypto, client: nat, server: nat, mine: string, theirs: string)
    requires Sound(c) && Sizes(c) && Nonce(mine) && Nonce(theirs)
    ensures |RequestText(c, client, mine)| == 315 && '\n' !in RequestText(c, client, mine)
    ensures |AnswerText(c, client, server, mine, theirs)| == 315 && '\n' !in AnswerText(c, client, server, mine, theirs)
    ensures |Proof(c, client, server, mine, theirs)| == 128 && '\n' !in Proof(c, client, server, mine, theirs)
  {
    assert Word(c.pubHex(client)) && Word(c.torId(client)) && Word(c.pubHex(server));
    assert Word(c.sign(client, AskedText(c, client, mine)));
    assert Word(c.sign(server, OfferText(c, client, server, theirs) + " " + RequestText(c, client, mine)));
    assert Word(Proof(c, client, server, mine, theirs));
  }

  lemma ServerHears(c: Crypto, client: nat, server: nat, mine: string, theirs: string)
    requires Sound(c) && Sizes(c) && Nonce(mine) && Nonce(theirs)
    ensures var input := ClientSays(c, client, server, mine, theirs);
            && FrontLine(input) == Some((RequestText(c, client, mine), Proof(c, client, server, mine, theirs) + "\n"))
            && FrontLine(FrontLine(input).value.1) == Some((Proof(c, client, server, mine, theirs), ""))
            && Split(FrontLine(input).value.0, ' ') == Request(c, client, mine)
  {
    LinesAreShort(c, client, server, mine, theirs);
    var proof := Proof(c, client, server, mine, theirs);
    LineLength(RequestText(c, client, mine), proof + "\n");
    LineLength(proof, "");
    assert proof + "\n" == proof + "\n" + "";
    WireRequest(c, client, mine);
    SplitJoin(Request(c, client, mine), ' ');
  }

  lemma ClientHears(c: Crypto, client: nat, server: nat, mine: string, theirs: string)
    requires Sound(c) && Sizes(c) && Nonce(mine) && Nonce(theirs) && Admits(c, Request(c, client, mine))
    ensures var input := ServerSays(c, client, server, mine, theirs);
            && FrontLine(input) == Some((AnswerText(c, client, server, mine, theirs), "OK\n"))
            && LineText(FrontLine(input).value.1) == "OK"
            && Split(FrontLine(input).value.0, ' ') == Answer(c, server, Request(c, client, mine), theirs)
  {
    LinesAreShort(c, client, server, mine, theirs);
    LineLength(AnswerText(c, client, server, mine, theirs), "OK\n");
    LineLength("OK", "");
    assert "OK\n" == "OK" + "\n" + "";
    WireAnswer(c, client, server, mine, theirs);
    SplitJoin(Answer(c, server, Request(c, client, mine), theirs), ' ');
  }

  /** An honest client and an honest server that are connected to each other: each
      writes exactly what the other reads, the server accepts the client's key and
      the client trusts the server's. */
  lemma EndsAgree(c: Crypto, client: nat, server: nat, mine: string, theirs: string, allowed: nat -> bool,
                  said: string, peer: Option<nat>, heard: string, r: Outcome)
    requires Sound(c) && Sizes(c) && Nonce(mine) && Nonce(theirs) && allowed(client)
    requires ServerDone(c, server, allowed, theirs, ClientSays(c, client, server, mine, theirs), "", said, peer)
    requires ClientDone(c, client, mine, ServerSays(c, client, server, mine, theirs), "", heard, r)
    ensures peer == Some(client) && said == ServerSays(c, client, server, mine, theirs)
    ensures r == Trusted(server) && heard == ClientSays(c, client, server, mine, theirs)
  {
    RequestAdmitted(c, client, mine);
    ServerAccepts(c, client, server, mine, theirs, allowed, said, peer);
    ClientTrusts(c, client, server, mine, theirs, heard, r);
  }

  lemma ServerAccepts(c: Crypto, client: nat, server: nat, mine: string, theirs: string, allowed: nat -> bool,
                      said: string, peer: Option<nat>)
    requires Sound(c) && Sizes(c) && Nonce(mine) && Nonce(theirs) && allowed(client) && Admits(c, Request(c, client, mine))
    requires c.keyOf(Request(c, client, mine)[0]) == Some(client)
    requires ServerDone(c, server, allowed, theirs, ClientSays(c, client, server, mine, theirs), "", said, peer)
    ensures peer == Some(client) && said == ServerSays(c, client, server, mine, theirs)
  {
    ServerHears(c, client, server, mine, theirs);
    WireAnswer(c, client, server, mine, theirs);
  }

  lemma ClientTrusts(c: Crypto, client: nat, server: nat, mine: string, theirs: string, heard: string, r: Outcome)
    requires Sound(c) && Sizes(c) && Nonce(mine) && Nonce(theirs) && Admits(c, Request(c, client, mine))
    requires ClientDone(c, client, mine, ServerSays(c, client, server, mine, theirs), "", heard, r)
    ensures r == Trusted(server) && heard == ClientSays(c, client, server, mine, theirs)
  {
    ClientHears(c, client, server, mine, theirs);
    WireRequest(c, client, mine);
    WireAnswer(c, client, server, mine, theirs);
    AnswerTrusted(c, server, Request(c, client, mine), theirs);
    assert c.keyOf(Answer(c, server, Request(c, client, mine), theirs)[0]) == Some(server);
  }

  // ---- what each end accepts ------------------------------------------------

  /** A request in four words: a key, that key's id, a nonce, and the key's signature
      of the three. */
  ghost predicate FromKey(c: Crypto, words: seq<string>, key: nat) {
    && |words| == 4 && c.keyOf(words[0]) == Some(key) && words[1] == c.torId(key)
    && c.verify(key, words[0] + " " + words[1] + " " + words[2], words[3])
  }

  /** Every input: the server accepts a key if and only if the first line is an allowed
      key's request in four words and the second the key's signature of the answer. */
  lemma ServerAcceptsExactly(c: Crypto, key: nat, allowed: nat -> bool, nonce: string,
                             input: string, before: string, after: string, peer: Option<nat>, client: nat)
    requires ServerDone(c, key, allowed, nonce, input, before, after, peer)
    ensures peer == Some(client) <==>
              && FrontLine(input).Some?
              && var words := Split(FrontLine(input).value.0, ' ');
                 && FromKey(c, words, client) && allowed(client)
                 && var offer := c.pubHex(key) + " " + c.torId(client) + " " + nonce;
                    var answer := offer + " " + c.sign(key, offer + " " + FrontLine(input).value.0);
                    var rest := FrontLine(input).value.1;
                    FrontLine(rest).Some? && c.verify(client, answer, FrontLine(rest).value.0)
  {
    if FrontLine(input).Some? {
      var words := Split(FrontLine(input).value.0, ' ');
      JoinSplit(FrontLine(input).value.0, ' ');
      AdmitsExactly(c, words, client);
      if FromKey(c, words, client) {
        AnswerWords(c, key, words, nonce, client);
      }
    }
  }

  lemma AdmitsExactly(c: Crypto, words: seq<string>, client: nat)
    ensures Admits(c, words) && c.keyOf(words[0]) == Some(client) <==> FromKey(c, words, client)
  {
    if |words| == 4 {
      JoinThree(words[0], words[1], words[2]);
      assert words[..3] == [words[0], words[1], words[2]];
    }
  }

  lemma AnswerWords(c: Crypto, key: nat, words: seq<string>, nonce: string, client: nat)
    requires Admits(c, words) && c.keyOf(words[0]) == Some(client)
    ensures var offer := c.pubHex(key) + " " + c.torId(client) + " " + nonce;
            Wire(Answer(c, key, words, nonce)) == offer + " " + c.sign(key, offer + " " + Join(words, ' '))
  {
    var offer := Offered(c, key, words, nonce);
    JoinThree(c.pubHex(key), c.torId(client), nonce);
    JoinConcat(offer, words, ' ');
    var signature := c.sign(key, Wire(offer + words));
    JoinFour(c.pubHex(key), c.torId(client), nonce, signature);
    assert Answer(c, key, words, nonce) == [c.pubHex(key), c.torId(client), nonce, signature];
  }

  /** The last line is OK whether or not it is terminated. */
  lemma SaysOk(rest: string)
    ensures LineText(rest) == "OK" <==> rest == "OK" || "OK\n" <= rest
  {
    if "OK\n" <= rest {
      assert rest == "OK" + "\n" + rest[3..];
      LineLength("OK", rest[3..]);
    }
    if rest == "OK" {
      NoLineEnd(rest);
    }
  }

  /** Every input: the client trusts a key if and only if the first line is the key, two
      more words and the key's signature of these three and the request, and the
      second line is OK. */
  lemma ClientTrustsExactly(c: Crypto, key: nat, nonce: string, input: string, before: string, after: string, r: Outcome, server: nat)
    requires ClientDone(c, key, nonce, input, before, after, r)
    ensures r == Trusted(server) <==>
              && FrontLine(input).Some?
              && var words := Split(FrontLine(input).value.0, ' ');
                 && |words| >= 4 && c.keyOf(words[0]) == Some(server)
                 && c.verify(server, words[0] + " " + words[1] + " " + words[2] + " " + RequestText(c, key, nonce), words[3])
                 && var rest := FrontLine(input).value.1; rest == "OK" || "OK\n" <= rest
  {
    if FrontLine(input).Some? {
      SaysOk(FrontLine(input).value.1);
      var words := Split(FrontLine(input).value.0, ' ');
      if |words| >= 4 {
        WireRequest(c, key, nonce);
        JoinThree(words[0], words[1], words[2]);
        assert words[..3] == [words[0], words[1], words[2]];
        JoinConcat(words[..3], Request(c, key, nonce), ' ');
      }
    }
  }
}
