/** What a signature covers, field by field: the list at the head of
    pkg/messages/messages.go written out, the preamble and the parts. */
module SignedFields {
  import opened Options
  import opened Text
  import opened SortedKeys
  import D = ArticleDb
  import opened Mail
  import opened MailLines
  import opened MailParse
  import opened MailHops
  import opened SignedArticles

  const COVERED: set<string> :=
    {"From", "Newsgroups", "Date", "Subject", "Approved", "Control", "Distribution", "Message-Id",
     "Supersedes", "Sender", "Mime-Version", "Content-Type", "Content-Transfer-Encoding"}

  /** No signature verifies for another key or another text. */
  ghost predicate Binding(s: Scheme) {
    forall p, k: nat, t, d :: s.verify(p, t, s.sign(k, d)) ==> p == s.pub(k) && t == d
  }

  /** m carries key's signature of its own signed form. */
  predicate SignedWith(m: Message, key: nat, s: Scheme, media: Media) {
    && Get(m.header, "Approved") == s.pub(key)
    && Get(m.header, "X-Kothawoc-Signature") == s.sign(key, SignedForm(m, media))
  }

  /** The field is there with the same values in both, or in neither. */
  predicate SameField(h: Header, g: Header, k: string) {
    (k in h <==> k in g) && (k in h ==> h[k] == g[k])
  }

  /** Nothing that a signature covers differs. */
  ghost predicate SameCovered(m: Message, n: Message) {
    && (forall k | k in COVERED :: SameField(m.header, n.header, k))
    && DropCr(m.preamble) == DropCr(n.preamble) && CanonParts(m.parts) == CanonParts(n.parts)
  }

  lemma CoveredAreSigned(k: string)
    ensures k in COVERED <==> k in SIGNATURE_FIELDS
  {
    var f := SIGNATURE_FIELDS;
    assert f == ["From", "Newsgroups", "Date", "Subject", "Approved", "Control", "Distribution", "Message-Id",
                 "Supersedes", "Sender", "Mime-Version", "Content-Type", "Content-Transfer-Encoding"];
    assert k in COVERED ==> exists i :: 0 <= i < 13 && f[i] == k by {
      assert f[0] == "From" && f[1] == "Newsgroups" && f[2] == "Date" && f[3] == "Subject" && f[4] == "Approved";
      assert f[5] == "Control" && f[6] == "Distribution" && f[7] == "Message-Id" && f[8] == "Supersedes";
      assert f[9] == "Sender" && f[10] == "Mime-Version" && f[11] == "Content-Type" && f[12] == "Content-Transfer-Encoding";
    }
  }

  lemma SameForms(m: Message, n: Message, media: Media)
    requires Wf(m, media) && Wf(n, media)
    ensures SignedForm(m, media) == SignedForm(n, media) <==> SameCovered(m, n)
  {
    forall k ensures k in COVERED <==> k in SIGNATURE_FIELDS {
      CoveredAreSigned(k);
    }
    if SignedForm(m, media) == SignedForm(n, media) {
      SignatureCovers(m, n, media);
      forall k | k in COVERED ensures SameField(m.header, n.header, k) {
        RestrictedField(m.header, n.header, k, SIGNATURE_FIELDS);
      }
    }
    if SameCovered(m, n) {
      forall k | k in SIGNATURE_FIELDS ensures (k in m.header <==> k in n.header) && (k in m.header ==> m.header[k] == n.header[k]) {
        assert SameField(m.header, n.header, k);
      }
      SameSignedForm(m, n, media);
    }
  }

  lemma RestrictedField(h: Header, g: Header, k: string, keys: seq<string>)
    requires k in keys && Restrict(h, keys) == Restrict(g, keys)
    ensures SameField(h, g, k)
  {
    assert k in Restrict(h, keys) <==> k in h;
    assert k in Restrict(g, keys) <==> k in g;
  }

  /** A message that was signed, or what has become of it with its signature kept,
      verifies if and only if it agrees with the signed one in each of the thirteen
      fields, in the preamble and in the parts. */
  lemma VerifiesExactly(m: Message, n: Message, key: nat, s: Scheme, media: Media)
    requires Ideal(s) && Binding(s) && Wf(m, media) && Wf(n, media) && SignedWith(m, key, s, media)
    requires Get(n.header, "X-Kothawoc-Signature") == Get(m.header, "X-Kothawoc-Signature")
    ensures Verify(n, s, media) <==> SameCovered(m, n)
  {
    SameForms(m, n, media);
    if SameCovered(m, n) {
      assert SameField(m.header, n.header, "Approved");
    }
  }

  lemma SameVerdict(m: Message, n: Message, s: Scheme, media: Media)
    requires n.preamble == m.preamble && n.parts == m.parts
    requires forall k | k in COVERED :: SameField(m.header, n.header, k)
    requires Get(n.header, "X-Kothawoc-Signature") == Get(m.header, "X-Kothawoc-Signature")
    ensures Verify(n, s, media) == Verify(m, s, media)
  {
    forall k | k in SIGNATURE_FIELDS ensures (k in m.header <==> k in n.header) && (k in m.header ==> m.header[k] == n.header[k]) {
      CoveredAreSigned(k);
      assert SameField(m.header, n.header, k);
    }
    SameSignedForm(m, n, media);
    assert SameField(m.header, n.header, "Approved");
  }

  /** The fields that are not covered may be changed, added and removed. */
  lemma OtherFieldsFree(m: Message, k: string, values: seq<string>, s: Scheme, media: Media)
    requires k !in COVERED && k != "X-Kothawoc-Signature"
    ensures Verify(m.(header := m.header[k := values]), s, media) == Verify(m, s, media)
    ensures Verify(m.(header := m.header - {k}), s, media) == Verify(m, s, media)
  {
    SameVerdict(m, m.(header := m.header[k := values]), s, media);
    SameVerdict(m, m.(header := m.header - {k}), s, media);
  }

  /** What a verified article says and does is its signer's: all that the relay reads of
      it but the Path. */
  lemma SignersArticle(m: Message, n: Message, key: nat, s: Scheme, media: Media, read: CardReader)
    requires Ideal(s) && Binding(s) && Wf(m, media) && Wf(n, media) && SignedWith(m, key, s, media)
    requires Get(n.header, "X-Kothawoc-Signature") == Get(m.header, "X-Kothawoc-Signature") && Verify(n, s, media)
    ensures var a := ArticleOf(n, read);
            && a.control == Get(m.header, "Control") && a.newsgroups == Get(m.header, "Newsgroups")
            && a.messageId == Get(m.header, "Message-Id") && a.from == Get(m.header, "From")
            && a.infos == ArticleOf(m, read).infos && a.card == ArticleOf(m, read).card
  {
    VerifiesExactly(m, n, key, s, media);
    SameReadFields(m, n, read);
    SameContents(m.parts, n.parts, INFO_TYPE);
    SameContents(m.parts, n.parts, CARD_TYPE);
  }

  lemma SameReadFields(m: Message, n: Message, read: CardReader)
    requires forall k | k in {"Control", "Newsgroups", "Message-Id", "From"} :: SameField(m.header, n.header, k)
    ensures var a := ArticleOf(n, read);
            && a.control == Get(m.header, "Control") && a.newsgroups == Get(m.header, "Newsgroups")
            && a.messageId == Get(m.header, "Message-Id") && a.from == Get(m.header, "From")
  {
    assert SameField(m.header, n.header, "Control") && SameField(m.header, n.header, "Newsgroups");
    assert SameField(m.header, n.header, "Message-Id") && SameField(m.header, n.header, "From");
  }

  /** Sign leaves a message that carries its key, its id and its signature, and that
      verifies; every field but the three is as it was. */
  lemma SignSigns(m: Message, key: nat, s: Scheme, media: Media)
    requires Ideal(s)
    ensures var n := Sign(m, key, s, media);
            && SignedWith(n, key, s, media) && Get(n.header, "From") == s.torId(key) && Verify(n, s, media)
            && n.preamble == m.preamble && n.parts == m.parts
            && forall k | k !in {"Approved", "From", "X-Kothawoc-Signature"} :: SameField(m.header, n.header, k)
  {
    VerifiedFrom(m, key, s.torId(key), s, media);
    SignatureFieldsDistinct();
    var a := Set(Set(m, "Approved", s.pub(key)), "From", s.torId(key));
    SameSignedForm(a, Sign(m, key, s, media), media);
    assert |"Approved"| == 8 && |"From"| == 4 && |"X-Kothawoc-Signature"| == 20;
  }
}
