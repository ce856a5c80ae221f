/** Signatures over any number of hops, and what they cover. */
module MailHops {
  import opened Options
  import opened Text
  import opened Sets
  import opened SortedKeys
  import opened Mail
  import opened MailLines
  import opened MailParse

  /** An ideal signature scheme, in the header encodings the relay uses. */
  datatype Scheme = Scheme(pub: nat -> string, torId: nat -> string,
                           sign: (nat, string) -> string, verify: (string, string, string) -> bool)

  /** What a key has signed verifies, for that text and no other, and all
      encodings are clean header values. */
  ghost predicate Ideal(s: Scheme) {
    && (forall k: nat, d, t :: s.verify(s.pub(k), t, s.sign(k, d)) <==> t == d)
    && (forall k: nat :: WfValue(s.pub(k)) && WfValue(s.torId(k)))
    && (forall k: nat, d :: WfValue(s.sign(k, d)))
  }

  function Set(m: Message, key: string, value: string): Message {
    m.(header := m.header[key := [value]])
  }

  function SignedForm(m: Message, media: Media): string {
    Signed(m, BoundaryOf(m, media))
  }

  /** Sign: fill in Approved and From, then sign what is printed with those. */
  function Sign(m: Message, key: nat, s: Scheme, media: Media): Message {
    var a := Set(Set(m, "Approved", s.pub(key)), "From", s.torId(key));
    Set(a, SIGNATURE_HEADER, s.sign(key, SignedForm(a, media)))
  }

  function Verify(m: Message, s: Scheme, media: Media): bool {
    s.verify(Get(m.header, "Approved"), SignedForm(m, media), Get(m.header, SIGNATURE_HEADER))
  }

  // ---- a hop ----------------------------------------------------------------

  /** A hop: the receiving host, and the orders in which the sender and the
      receiver's file happen to list the unsigned header fields. */
  datatype Hop = Hop(host: string, sendOrder: seq<string>, fileOrder: seq<string>)

  function RawText(m: Message, order: seq<string>, media: Media): string {
    Print(m, SIGNATURE_FIELDS + order, BoundaryOf(m, media))
  }

  /** The message a peer reads off the connection. */
  function Received(m: Message, order: seq<string>, media: Media): Option<Message> {
    Parse(Transfer(RawText(m, order, media)), media)
  }

  /** Receive, put the host in front of the Path, store, and read the file again. */
  function Cross(m: Message, hop: Hop, media: Media): Option<Message> {
    match Received(m, hop.sendOrder, media)
    case None => None
    case Some(r) => Parse(RawText(Set(r, "Path", hop.host + "!" + Get(r.header, "Path")), hop.fileOrder, media), media)
  }

  function Travel(m: Message, hops: seq<Hop>, media: Media): Option<Message>
    decreases |hops|
  {
    if hops == [] then Some(m) else Onward(Cross(m, hops[0], media), hops, media)
  }

  function Onward(m: Option<Message>, hops: seq<Hop>, media: Media): Option<Message>
    requires hops != []
    decreases |hops|, 0
  {
    if m.None? then None else Travel(m.value, hops[1..], media)
  }

  /** Each order lists exactly the unsigned fields. */
  ghost predicate HopOk(h: Header, hop: Hop) {
    && hop.host != "" && (forall i | 0 <= i < |hop.host| :: !IsSpace(hop.host[i]))
    && Lists(hop.sendOrder, RestKeys(h)) && Lists(hop.fileOrder, RestKeys(h))
  }

  // ---- signature fields -----------------------------------------------------

  lemma SignatureFieldsDistinct()
    ensures Distinct(SIGNATURE_FIELDS)
    ensures "Content-Type" in SIGNATURE_FIELDS && "Approved" in SIGNATURE_FIELDS && "From" in SIGNATURE_FIELDS
    ensures "Path" !in SIGNATURE_FIELDS && SIGNATURE_HEADER !in SIGNATURE_FIELDS
  {
    assert SIGNATURE_FIELDS[4] == "Approved" && SIGNATURE_FIELDS[0] == "From";
    assert SIGNATURE_FIELDS[11] == "Content-Type";
  }

  lemma AllKeys(h: Header, order: seq<string>)
    requires Lists(order, RestKeys(h))
    ensures Distinct(SIGNATURE_FIELDS + order) && "Content-Type" in SIGNATURE_FIELDS + order
    ensures Restrict(h, SIGNATURE_FIELDS + order) == h
  {
    SignatureFieldsDistinct();
    var keys := SIGNATURE_FIELDS + order;
    forall i, j | 0 <= i < j < |keys| ensures keys[i] != keys[j] {
      if i < |SIGNATURE_FIELDS| <= j {
        assert keys[j] in order && keys[i] in SIGNATURE_FIELDS;
      }
    }
    forall k | k in h ensures k in keys {
      assert k in SIGNATURE_FIELDS || k in RestKeys(h);
    }
  }

  // ---- messages with the same canonical form --------------------------------

  lemma {:induction false} SamePartsText(a: seq<Part>, c: seq<Part>, b: string, first: bool)
    requires CanonParts(a) == CanonParts(c)
    ensures PartsText(a, b, first) == PartsText(c, b, first)
    decreases |a|
  {
    assert |a| == |CanonParts(a)| == |c|;
    if a != [] {
      assert CanonPart(a[0]) == CanonParts(a)[0] == CanonPart(c[0]);
      assert CanonParts(a)[1..] == CanonParts(a[1..]) && CanonParts(c)[1..] == CanonParts(c[1..]);
      SamePartsText(a[1..], c[1..], b, false);
    }
  }

  /** Equal up to line ends and to unsigned fields: the same signed form. */
  lemma SameSignedForm(m: Message, n: Message, media: Media)
    requires Canon(m).(header := map[]) == Canon(n).(header := map[])
    requires forall k | k in SIGNATURE_FIELDS :: (k in m.header <==> k in n.header) && (k in m.header ==> m.header[k] == n.header[k])
    ensures SignedForm(m, media) == SignedForm(n, media)
  {
    SignatureFieldsDistinct();
    assert BoundaryOf(m, media) == BoundaryOf(n, media);
    SameHeaderLines(m.header, n.header, SIGNATURE_FIELDS);
    SamePartsText(m.parts, n.parts, BoundaryOf(m, media), true);
    assert |m.parts| == |CanonParts(m.parts)| == |n.parts|;
  }

  lemma {:induction false} SameHeaderLines(h: Header, g: Header, keys: seq<string>)
    requires forall k | k in keys :: (k in h <==> k in g) && (k in h ==> h[k] == g[k])
    ensures HeaderLines(h, keys) == HeaderLines(g, keys)
    decreases |keys|
  {
    if keys != [] {
      assert forall k | k in keys[..|keys| - 1] :: k in keys;
      SameHeaderLines(h, g, keys[..|keys| - 1]);
    }
  }

  lemma SameWf(m: Message, n: Message, media: Media)
    requires Canon(m) == Canon(n) && Wf(m, media) && WholeLines(m)
    ensures Wf(n, media) && WholeLines(n)
  {
    assert |m.parts| == |CanonParts(m.parts)| == |n.parts|;
    forall i | 0 <= i < |n.parts|
      ensures n.parts[i].header == m.parts[i].header && DropCr(n.parts[i].content) == DropCr(m.parts[i].content)
    {
      assert CanonParts(m.parts)[i] == CanonParts(n.parts)[i];
    }
  }

  lemma SetPathWf(m: Message, path: string, media: Media)
    requires Wf(m, media) && WholeLines(m) && WfValue(path)
    ensures Wf(Set(m, "Path", path), media) && WholeLines(Set(m, "Path", path))
    ensures SignedForm(Set(m, "Path", path), media) == SignedForm(m, media)
  {
    var n := Set(m, "Path", path);
    SignatureFieldsDistinct();
    SetPathHeader(m.header, path, media);
    SetHeaderWf(m, n.header, media);
    assert Canon(n) == Canon(m).(header := n.header);
    SameSignedForm(m, n, media);
  }

  lemma SetPathHeader(h: Header, path: string, media: Media)
    requires WfHeader(h) && WfValue(path)
    ensures WfHeader(h["Path" := [path]]) && Boundary(h["Path" := [path]], media) == Boundary(h, media)
  {
    assert "Path" != "Content-Type" by { assert |"Path"| != |"Content-Type"|; }
    assert WfKey("Path");
  }

  lemma SetHeaderWf(m: Message, h: Header, media: Media)
    requires Wf(m, media) && WholeLines(m) && WfHeader(h) && Boundary(h, media) == Boundary(m.header, media)
    ensures Wf(m.(header := h), media) && WholeLines(m.(header := h))
  {
  }

  // ---- the theorem ----------------------------------------------------------

  /** A message fit to travel: well formed, of whole lines, with a Path. */
  ghost predicate Fit(m: Message, media: Media) {
    Wf(m, media) && WholeLines(m) && "Path" in m.header && Get(m.header, "Path") != ""
  }

  lemma ReceivedSame(m: Message, order: seq<string>, media: Media)
    requires Wf(m, media) && WholeLines(m) && Lists(order, RestKeys(m.header))
    ensures var r := Received(m, order, media);
            && r.Some? && Canon(r.value) == Canon(m)
            && Wf(r.value, media) && WholeLines(r.value) && SignedForm(r.value, media) == SignedForm(m, media)
  {
    AllKeys(m.header, order);
    PrintParse(m, SIGNATURE_FIELDS + order, media);
    var r := Received(m, order, media).value;
    assert m.(header := m.header) == m;
    assert Canon(r).header == r.header && Canon(m).header == m.header;
    SameWf(m, r, media);
    SameSignedForm(m, r, media);
  }

  lemma StoredSame(m: Message, order: seq<string>, media: Media)
    requires Wf(m, media) && WholeLines(m) && Lists(order, RestKeys(m.header))
    ensures var r := Parse(RawText(m, order, media), media);
            && r.Some? && Canon(r.value) == Canon(m)
            && Wf(r.value, media) && WholeLines(r.value) && SignedForm(r.value, media) == SignedForm(m, media)
  {
    AllKeys(m.header, order);
    PrintParse(m, SIGNATURE_FIELDS + order, media);
    var r := Parse(RawText(m, order, media), media).value;
    assert m.(header := m.header) == m;
    assert Canon(r).header == r.header && Canon(m).header == m.header;
    SameWf(m, r, media);
    SameSignedForm(m, r, media);
  }

  lemma PathValue(host: string, path: string)
    requires host != "" && (forall i | 0 <= i < |host| :: !IsSpace(host[i])) && WfValue(path)
    ensures WfValue(host + "!" + path)
  {
    var v := host + "!" + path;
    assert v[|v| - 1] == if path == "" then '!' else path[|path| - 1];
  }

  lemma PathKeys(h: Header, value: string)
    requires "Path" in h
    ensures RestKeys(h["Path" := [value]]) == RestKeys(h)
  {
  }

  /** One hop keeps the signed form, the parts and every header field but the Path. */
  lemma CrossKeeps(m: Message, hop: Hop, media: Media)
    requires Fit(m, media) && HopOk(m.header, hop)
    ensures var r := Cross(m, hop, media);
            && r.Some? && Fit(r.value, media) && SignedForm(r.value, media) == SignedForm(m, media)
            && r.value.header == m.header["Path" := [hop.host + "!" + Get(m.header, "Path")]]
            && CanonParts(r.value.parts) == CanonParts(m.parts)
  {
    ReceivedSame(m, hop.sendOrder, media);
    var r := Received(m, hop.sendOrder, media).value;
    assert r.header == Canon(r).header == m.header;
    var path := hop.host + "!" + Get(m.header, "Path");
    PathValue(hop.host, Get(m.header, "Path"));
    SetPathWf(r, path, media);
    PathKeys(m.header, path);
    var t := Set(r, "Path", path);
    StoredSame(t, hop.fileOrder, media);
    var u := Parse(RawText(t, hop.fileOrder, media), media).value;
    assert u.header == Canon(u).header == t.header;
    assert CanonParts(u.parts) == Canon(u).parts == Canon(t).parts == Canon(r).parts == Canon(m).parts;
  }

  ghost predicate HopsOk(h: Header, hops: seq<Hop>) {
    forall i | 0 <= i < |hops| :: HopOk(h, hops[i])
  }

  lemma HopOkSameKeys(h: Header, g: Header, hop: Hop)
    requires RestKeys(h) == RestKeys(g) && HopOk(h, hop)
    ensures HopOk(g, hop)
  {
  }

  lemma LaterHopsOk(h: Header, g: Header, hops: seq<Hop>)
    requires hops != [] && HopsOk(h, hops) && RestKeys(h) == RestKeys(g)
    ensures HopsOk(g, hops[1..])
  {
    forall i | 0 <= i < |hops[1..]| ensures HopOk(g, hops[1..][i]) {
      HopOkSameKeys(h, g, hops[i + 1]);
    }
  }

  lemma {:induction false} TravelKeeps(m: Message, hops: seq<Hop>, media: Media)
    requires Fit(m, media) && HopsOk(m.header, hops)
    ensures var r := Travel(m, hops, media);
            && r.Some? && Fit(r.value, media) && SignedForm(r.value, media) == SignedForm(m, media)
            && forall k | k != "Path" && k in m.header :: k in r.value.header && r.value.header[k] == m.header[k]
    decreases |hops|
  {
    if hops != [] {
      CrossKeeps(m, hops[0], media);
      var t := Cross(m, hops[0], media).value;
      LaterHopsOk(m.header, t.header, hops) by {
        PathKeys(m.header, hops[0].host + "!" + Get(m.header, "Path"));
      }
      TravelKeeps(t, hops[1..], media);
    }
  }

  lemma SignVerifies(m: Message, key: nat, s: Scheme, media: Media)
    requires Ideal(s)
    ensures Verify(Sign(m, key, s, media), s, media)
    ensures SIGNATURE_HEADER in Sign(m, key, s, media).header && "Approved" in Sign(m, key, s, media).header
  {
    SignatureFieldsDistinct();
    var a := Set(Set(m, "Approved", s.pub(key)), "From", s.torId(key));
    SameSignedForm(a, Sign(m, key, s, media), media);
    assert "Approved" != "From" && "Approved" != SIGNATURE_HEADER;
  }

  lemma FieldWf(h: Header, key: string, value: string, media: Media)
    requires WfHeader(h) && WfKey(key) && WfValue(value) && |key| != |"Content-Type"|
    ensures WfHeader(h[key := [value]]) && Boundary(h[key := [value]], media) == Boundary(h, media)
  {
  }

  lemma SignedHeader(h: Header, pub: string, torId: string, sig: string, path: string, media: Media)
    requires WfHeader(h) && WfValue(pub) && WfValue(torId) && WfValue(sig) && WfValue(path)
    ensures var g := h["Approved" := [pub]]["From" := [torId]][SIGNATURE_HEADER := [sig]]["Path" := [path]];
            WfHeader(g) && Boundary(g, media) == Boundary(h, media)
  {
    assert WfKey("Approved") && WfKey("From") && WfKey(SIGNATURE_HEADER) && WfKey("Path");
    FieldWf(h, "Approved", pub, media);
    FieldWf(h["Approved" := [pub]], "From", torId, media);
    FieldWf(h["Approved" := [pub]]["From" := [torId]], SIGNATURE_HEADER, sig, media);
    FieldWf(h["Approved" := [pub]]["From" := [torId]][SIGNATURE_HEADER := [sig]], "Path", path, media);
  }

  /** A signed message as its origin posts it. */
  function Posted(m: Message, key: nat, origin: string, s: Scheme, media: Media): Message {
    Set(Sign(m, key, s, media), "Path", origin + "!.POSTED")
  }

  lemma PostedHeader(m: Message, key: nat, origin: string, s: Scheme, media: Media)
    requires Ideal(s) && WfHeader(m.header)
    requires origin != "" && forall i | 0 <= i < |origin| :: !IsSpace(origin[i])
    ensures var posted := Posted(m, key, origin, s, media);
            && posted == m.(header := posted.header) && WfHeader(posted.header)
            && Boundary(posted.header, media) == Boundary(m.header, media)
            && posted.header["Path"] == [origin + "!.POSTED"]
  {
    var a := Set(Set(m, "Approved", s.pub(key)), "From", s.torId(key));
    PathValue(origin, ".POSTED");
    assert origin + "!" + ".POSTED" == origin + "!.POSTED";
    SignedHeader(m.header, s.pub(key), s.torId(key), s.sign(key, SignedForm(a, media)), origin + "!.POSTED", media);
  }

  lemma PostedFit(m: Message, key: nat, origin: string, s: Scheme, media: Media)
    requires Ideal(s) && Wf(m, media) && WholeLines(m)
    requires origin != "" && forall i | 0 <= i < |origin| :: !IsSpace(origin[i])
    ensures Fit(Posted(m, key, origin, s, media), media)
  {
    var h := Posted(m, key, origin, s, media).header;
    PostedHeader(m, key, origin, s, media);
    SetHeaderWf(m, h, media);
  }

  lemma PostedForm(m: Message, key: nat, origin: string, s: Scheme, media: Media)
    ensures SignedForm(Posted(m, key, origin, s, media), media) == SignedForm(Sign(m, key, s, media), media)
  {
    SignatureFieldsDistinct();
    SameSignedForm(Sign(m, key, s, media), Posted(m, key, origin, s, media), media);
  }

  lemma SameVerdict(m: Message, n: Message, s: Scheme, media: Media)
    requires SignedForm(m, media) == SignedForm(n, media)
    requires forall k | k != "Path" && k in m.header :: k in n.header && n.header[k] == m.header[k]
    requires SIGNATURE_HEADER in m.header && "Approved" in m.header
    ensures Verify(m, s, media) <==> Verify(n, s, media)
    ensures SIGNATURE_HEADER in n.header && "Approved" in n.header
  {
    assert |"Approved"| == 8 && |"Path"| == 4 && |SIGNATURE_HEADER| == 20;
  }

  lemma TravelVerdict(m: Message, hops: seq<Hop>, s: Scheme, media: Media)
    requires Fit(m, media) && HopsOk(m.header, hops)
    requires SIGNATURE_HEADER in m.header && "Approved" in m.header
    ensures var r := Travel(m, hops, media);
            && r.Some? && SignedForm(r.value, media) == SignedForm(m, media)
            && (Verify(r.value, s, media) <==> Verify(m, s, media))
  {
    TravelKeeps(m, hops, media);
    SameVerdict(m, Travel(m, hops, media).value, s, media);
  }

  /** Signatures survive any number of hops: a well-formed message of whole lines
      that was signed and given its origin's Path verifies after every sequence of
      hops, whatever the order of the unsigned fields at each, because the text
      Verify rebuilds is the text Sign signed. */
  lemma SignaturesSurvive(m: Message, key: nat, origin: string, hops: seq<Hop>, s: Scheme, media: Media)
    requires Ideal(s) && Wf(m, media) && WholeLines(m)
    requires origin != "" && forall i | 0 <= i < |origin| :: !IsSpace(origin[i])
    requires HopsOk(Posted(m, key, origin, s, media).header, hops)
    ensures var r := Travel(Posted(m, key, origin, s, media), hops, media);
            && r.Some? && Verify(r.value, s, media)
            && SignedForm(r.value, media) == SignedForm(Sign(m, key, s, media), media)
  {
    var posted := Posted(m, key, origin, s, media);
    SignVerifies(m, key, s, media);
    PostedFit(m, key, origin, s, media);
    PostedForm(m, key, origin, s, media);
    SameVerdict(Sign(m, key, s, media), posted, s, media);
    TravelVerdict(posted, hops, s, media);
  }

  /** And each peer on the way accepts it before it adds itself to the Path. */
  lemma PeerVerifies(m: Message, order: seq<string>, s: Scheme, media: Media)
    requires Wf(m, media) && WholeLines(m) && Lists(order, RestKeys(m.header))
    ensures Received(m, order, media).Some?
    ensures Verify(Received(m, order, media).value, s, media) <==> Verify(m, s, media)
  {
    ReceivedSame(m, order, media);
    var r := Received(m, order, media).value;
    assert r.header == Canon(r).header == m.header;
  }

  // ---- what a signature covers ----------------------------------------------

  /** Two well-formed messages with the same signed form agree on every signature
      field, on the preamble and on every part, up to line ends. */
  lemma SignatureCovers(m: Message, n: Message, media: Media)
    requires Wf(m, media) && Wf(n, media) && SignedForm(m, media) == SignedForm(n, media)
    ensures DropCr(m.preamble) == DropCr(n.preamble) && CanonParts(m.parts) == CanonParts(n.parts)
    ensures Restrict(m.header, SIGNATURE_FIELDS) == Restrict(n.header, SIGNATURE_FIELDS)
  {
    SignatureFieldsDistinct();
    PrintParse(m, SIGNATURE_FIELDS, media);
    PrintParse(n, SIGNATURE_FIELDS, media);
    var a := Canon(m.(header := Restrict(m.header, SIGNATURE_FIELDS)));
    var c := Canon(n.(header := Restrict(n.header, SIGNATURE_FIELDS)));
    assert a == c;
  }

  // ---- whole lines ----------------------------------------------------------

  lemma AddCrLonger(a: string, c: string)
    requires c != ""
    ensures |AddCr(a + c)| > |AddCr(a)|
  {
    AddCrConcat(a, c);
  }

  /** A one-line rest yields at most one part. */
  lemma LastLineParts(l: string, b: string)
    ensures |ReadParts([l, ""], b, true)| <= 1
  {
    var lines := [l, ""];
    assert lines[1..] == [""] && lines[1..][1..] == [];
    assert ReadParts([], b, true) == [];
  }

  /** A line end behind a last line that looks like a delimiter makes it one. */
  lemma LastLineCut(b: string, body: string)
    requires NoDelimiterLine(body, Some(b)) && !NoDelimiterLine(body + "\n", Some(b))
    ensures var pieces := Split(body, '\n');
            var n := |pieces| - 1;
            ParseBody(Some(b), body + "\n")
            == if n == 0 then Panics else Parsed(Join(pieces[..n], '\n'), ReadParts([pieces[n], ""], b, true))
  {
    var pieces := Split(body, '\n');
    var n := |pieces| - 1;
    SplitEndsLine(body);
    PrefixAtGrown(pieces, Dash(b));
    assert PrefixAt(pieces + [""], Dash(b)) == n;
    assert (pieces + [""])[..n] == pieces[..n] && (pieces + [""])[n..] == [pieces[n], ""];
  }

  lemma FrontShorter(body: string, n: nat)
    requires n == |Split(body, '\n')| - 1 && n > 0 && '\r' !in body
    ensures |Crlf(Join(Split(body, '\n')[..n], '\n'))| < |Crlf(body)|
  {
    var pieces := Split(body, '\n');
    var front, last := Join(pieces[..n], '\n'), ['\n'] + Join(pieces[n..], '\n');
    assert body == front + last by {
      JoinSplit(body, '\n');
      JoinConcat(pieces[..n], pieces[n..], '\n');
      assert pieces == pieces[..n] + pieces[n..];
      Assoc(front, ['\n'], Join(pieces[n..], '\n'));
    }
    PlainFrontShorter(body, front, last);
  }

  lemma PlainFrontShorter(body: string, front: string, last: string)
    requires body == front + last && last != "" && '\r' !in body
    ensures |Crlf(front)| < |Crlf(body)|
  {
    AddCrLonger(front, last);
    assert forall c | c in front :: c in body;
    DropCrPlain(front);
    DropCrPlain(body);
  }

  /** A body that ended in mid-line comes back with a line end added, or, when
      that last line looks like a delimiter, without it. */
  lemma RestoredDiffers(boundary: Option<string>, body: string)
    requires NoDelimiterLine(body, boundary) && body != "" && '\r' !in body
    ensures var r := ParseBody(boundary, body + "\n");
            r.Parsed? ==> |r.parts| <= 1 && |Crlf(r.preamble)| != |Crlf(body)|
  {
    var text := body + "\n";
    if boundary.None? || NoDelimiterLine(text, boundary) {
      PlainBodyExact(boundary, text);
      DropCrPlain(body);
      DropCrPlain(text);
      AddCrLonger(body, "\n");
    } else {
      var n := |Split(body, '\n')| - 1;
      LastLineCut(boundary.value, body);
      if n > 0 {
        LastLineParts(Split(body, '\n')[n], boundary.value);
        FrontShorter(body, n);
      }
    }
  }

  lemma {:induction false} SplitEndsLine(s: string)
    ensures Split(s + "\n", '\n') == Split(s, '\n') + [""]
  {
    if s == "" {
      assert s + "\n" == "\n" && "\n"[1..] == "";
    } else {
      SplitEndsLine(s[1..]);
      assert (s + "\n")[1..] == s[1..] + "\n";
    }
  }

  lemma {:induction false} PrefixAtGrown(pieces: seq<string>, p: string)
    requires pieces != [] && PrefixAt(pieces, p) == |pieces| - 1
    ensures PrefixAt(pieces + [""], p) >= |pieces| - 1
    decreases |pieces|
  {
    if |pieces| > 1 {
      PrefixAtGrown(pieces[1..], p);
      assert (pieces + [""])[1..] == pieces[1..] + [""];
    }
  }

  /** A well-formed message keeps its signed form over a transfer exactly when it
      is made of whole lines: multipart messages always are, others must be empty
      or end in a line end. */
  lemma TransferKeepsSignature(m: Message, order: seq<string>, media: Media)
    requires Wf(m, media) && Lists(order, RestKeys(m.header))
    ensures var r := Received(m, order, media);
            r.Some? && SignedForm(r.value, media) == SignedForm(m, media) <==> WholeLines(m)
  {
    if WholeLines(m) {
      ReceivedSame(m, order, media);
    } else {
      BrokenLine(m, order, media);
    }
  }

  lemma BrokenLine(m: Message, order: seq<string>, media: Media)
    requires WfHeader(m.header) && WfPlain(m, media) && Lists(order, RestKeys(m.header)) && !EndsLine(DropCr(m.preamble))
    ensures var r := Received(m, order, media);
            r.Some? ==> SignedForm(r.value, media) != SignedForm(m, media)
  {
    var keys := SIGNATURE_FIELDS + order;
    var body := DropCr(m.preamble);
    AllKeys(m.header, order);
    PrintPlain(m, keys, BoundaryOf(m, media));
    TransferPlain(m.header, keys, m.preamble);
    var head := Eol(HeaderLines(m.header, keys) + [""], "");
    Assoc(head, body, "\n");
    ParsePlain(m.header, keys, media, "", body + "\n");
    DropCrNoCr(m.preamble);
    RestoredDiffers(Boundary(m.header, media), body);
    assert Crlf(body) == Crlf(m.preamble);
    var r := Received(m, order, media);
    if r.Some? {
      assert r.value.header == m.header;
      assert |m.parts| == 0 && BodyText(m, BoundaryOf(m, media)) == Crlf(m.preamble) + "";
      assert BodyText(r.value, BoundaryOf(m, media)) == Crlf(r.value.preamble) + "";
    }
  }
}
