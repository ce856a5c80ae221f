/** The article store's view of a signed message, over transfers and hops, and whom
    its From names. */
module SignedArticles {
  import opened Options
  import opened Text
  import opened SortedKeys
  import D = ArticleDb
  import R = Registry
  import B = Backend
  import opened Mail
  import opened MailLines
  import opened MailParse
  import opened MailHops

  const INFO_TYPE := "application/news-groupinfo;charset=UTF-8"
  const CARD_TYPE := "text/x-vcard;charset=UTF-8"

  /** The vCard decoder, as far as the permission entries go. */
  type CardReader = string -> seq<D.CardEntry>

  /** The contents of the parts of one type, in order, with LF line ends. */
  function Contents(parts: seq<Part>, contentType: string): seq<string> {
    if parts == [] then []
    else
      Contents(parts[..|parts| - 1], contentType)
      + (if Get(parts[|parts| - 1].header, "Content-Type") == contentType then [DropCr(parts[|parts| - 1].content)] else [])
  }

  /** The article that storing, posting and control messages look at. */
  function ArticleOf(m: Message, read: CardReader): D.Article {
    var cards := Contents(m.parts, CARD_TYPE);
    D.Article(Get(m.header, "Message-Id"), Get(m.header, SIGNATURE_HEADER), Get(m.header, "From"),
              Get(m.header, "Newsgroups"), Get(m.header, "Path"), Get(m.header, "Control"),
              Contents(m.parts, INFO_TYPE), if cards == [] then [] else read(cards[|cards| - 1]))
  }

  // ---- the same article at every node ---------------------------------------

  lemma {:induction false} SameContents(a: seq<Part>, b: seq<Part>, contentType: string)
    requires CanonParts(a) == CanonParts(b)
    ensures Contents(a, contentType) == Contents(b, contentType)
    decreases |a|
  {
    assert |a| == |CanonParts(a)| == |b|;
    if a != [] {
      var n := |a| - 1;
      assert CanonPart(a[n]) == CanonParts(a)[n] == CanonPart(b[n]);
      FrontCanon(a);
      FrontCanon(b);
      SameContents(a[..n], b[..n], contentType);
    }
  }

  lemma FrontCanon(a: seq<Part>)
    requires a != []
    ensures CanonParts(a[..|a| - 1]) == CanonParts(a)[..|a| - 1]
  {
    forall i | 0 <= i < |a| - 1 ensures CanonParts(a[..|a| - 1])[i] == CanonParts(a)[i] {
    }
  }

  lemma SameArticle(a: Message, b: Message, read: CardReader)
    requires a.header == b.header && CanonParts(a.parts) == CanonParts(b.parts)
    ensures ArticleOf(a, read) == ArticleOf(b, read)
  {
    SameContents(a.parts, b.parts, INFO_TYPE);
    SameContents(a.parts, b.parts, CARD_TYPE);
  }

  lemma PathSet(m: Message, path: string, read: CardReader)
    ensures ArticleOf(Set(m, "Path", path), read) == ArticleOf(m, read).(path := path)
  {
    assert |"Path"| == 4 && |"From"| == 4 && "Path"[0] != "From"[0] && |"Message-Id"| == 10 && |"Newsgroups"| == 10;
    assert |SIGNATURE_HEADER| == 20 && |"Control"| == 7;
  }

  lemma ReceivedFields(m: Message, order: seq<string>, media: Media)
    requires Wf(m, media) && WholeLines(m) && Lists(order, RestKeys(m.header))
    ensures var r := Received(m, order, media);
            r.Some? && r.value.header == m.header && CanonParts(r.value.parts) == CanonParts(m.parts)
  {
    ReceivedSame(m, order, media);
    var r := Received(m, order, media).value;
    assert r.header == Canon(r).header && m.header == Canon(m).header;
    assert CanonParts(r.parts) == Canon(r).parts && CanonParts(m.parts) == Canon(m).parts;
  }

  /** A peer takes in the article that was sent, with the verdict of the message
      that was sent. */
  lemma ReceivedArticle(m: Message, order: seq<string>, s: Scheme, media: Media, read: CardReader)
    requires Wf(m, media) && WholeLines(m) && Lists(order, RestKeys(m.header))
    ensures var r := Received(m, order, media);
            r.Some? && ArticleOf(r.value, read) == ArticleOf(m, read) && (Verify(r.value, s, media) <==> Verify(m, s, media))
  {
    PeerVerifies(m, order, s, media);
    ReceivedFields(m, order, media);
    SameArticle(Received(m, order, media).value, m, read);
  }

  /** What a peer reads back from its file is that article with the peer in front of
      its Path, as the backend files it. */
  lemma CrossedArticle(m: Message, hop: Hop, media: Media, read: CardReader)
    requires Fit(m, media) && HopOk(m.header, hop)
    ensures var a := ArticleOf(m, read);
            var r := Cross(m, hop, media);
            && r.Some? && B.NewPath(hop.host, B.Tor, a.path).Some?
            && ArticleOf(r.value, read) == a.(path := B.NewPath(hop.host, B.Tor, a.path).value)
  {
    CrossKeeps(m, hop, media);
    var r := Cross(m, hop, media).value;
    var path := hop.host + "!" + Get(m.header, "Path");
    SameArticle(r, Set(m, "Path", path), read);
    PathSet(m, path, read);
  }

  // ---- whom From names ------------------------------------------------------

  /** m carries key and From names it. */
  predicate Authentic(m: Message, key: nat, s: Scheme) {
    Get(m.header, "Approved") == s.pub(key) && Get(m.header, "From") == s.torId(key)
  }

  ghost predicate OwnIds(s: Scheme) {
    forall j: nat, k: nat :: s.torId(j) == s.torId(k) ==> j == k
  }

  /** Sign with From left as given. */
  function SignAs(m: Message, key: nat, from: string, s: Scheme, media: Media): Message {
    var a := Set(Set(m, "Approved", s.pub(key)), "From", from);
    Set(a, SIGNATURE_HEADER, s.sign(key, SignedForm(a, media)))
  }

  /** Verify covers From and does not compare it with the key: a signed message
      verifies whatever From its signer put in, and is authentic exactly when that
      is the signer's own id.  Sign puts that id in. */
  lemma VerifiedFrom(m: Message, key: nat, from: string, s: Scheme, media: Media)
    requires Ideal(s)
    ensures Verify(SignAs(m, key, from, s, media), s, media)
    ensures Authentic(SignAs(m, key, from, s, media), key, s) <==> from == s.torId(key)
    ensures Sign(m, key, s, media) == SignAs(m, key, s.torId(key), s, media)
  {
    SignatureFieldsDistinct();
    var a := Set(Set(m, "Approved", s.pub(key)), "From", from);
    SameSignedForm(a, SignAs(m, key, from, s, media), media);
    assert |"Approved"| == 8 && |"From"| == 4 && |SIGNATURE_HEADER| == 20;
  }

  /** Between authentic messages the From test of a cancel asks for the same key. */
  lemma AuthorCancels(c: Message, m: Message, j: nat, k: nat, s: Scheme, read: CardReader)
    requires OwnIds(s) && Authentic(c, j, s) && Authentic(m, k, s)
    ensures ArticleOf(c, read).from == ArticleOf(m, read).from <==> j == k
  {
  }
}
