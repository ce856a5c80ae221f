/** The newgroup message from the node that writes it to the node that acts on it
    (CreateNewsGroupMail and CheckControl, pkg/messages/control.go). */
module NewgroupMessages {
  import opened Options
  import opened Text
  import D = ArticleDb
  import opened Mail
  import opened MailLines
  import opened MailHops
  import opened SignedArticles
  import opened NewgroupText
  import R = Registry
  import G = ArticleGroups
  import Access

  /** CreateNewsGroupMail before it signs: the info part, a text for people, and the
      card if there is one. */
  function Written(owner: D.TorId, fullname: string, description: string, card: Option<string>, posting: Posting,
                   mid: D.MsgId, date: string): Message
  {
    var title := GroupTitle(owner, fullname);
    Message(map["Subject" := ["cmsg newgroup " + title + Flag(posting)], "Control" := ["newgroup " + title + Flag(posting)],
                "Message-Id" := [mid], "Date" := [date], "Newsgroups" := [title],
                "Content-Type" := ["multipart/mixed; boundary=\"nxtprt\""], "Content-Transfer-Encoding" := ["8bit"]],
            "This is a MIME control message.",
            [Part(map["Content-Type" := ["application/news-groupinfo;charset=UTF-8"]],
                  "For your newsgroups file:\r\n" + title + " " + description + Flag(posting)),
             Part(map["Content-Type" := ["text/plain;charset=UTF-8"]],
                  "This is a system control message to create the news group " + title + ".\r\n")]
            + (if card.None? then [] else [Part(map["Content-Type" := ["text/x-vcard;charset=UTF-8"]], card.value)]))
  }

  lemma ContentsMore(parts: seq<Part>, p: Part, contentType: string)
    ensures Contents(parts + [p], contentType)
            == Contents(parts, contentType) + (if Get(p.header, "Content-Type") == contentType then [DropCr(p.content)] else [])
  {
    assert (parts + [p])[..|parts|] == parts;
  }

  /** Of several cards the last one counts. */
  lemma LastCardCounts(m: Message, parts: seq<Part>, text: string, read: CardReader)
    requires m.parts == parts + [Part(map["Content-Type" := ["text/x-vcard;charset=UTF-8"]], text)]
    ensures ArticleOf(m, read).card == read(DropCr(text))
  {
    ContentsMore(parts, m.parts[|parts|], CARD_TYPE);
  }

  lemma TypesDiffer()
    ensures "application/news-groupinfo;charset=UTF-8" != "text/plain;charset=UTF-8"
    ensures "application/news-groupinfo;charset=UTF-8" != "text/x-vcard;charset=UTF-8"
    ensures "text/plain;charset=UTF-8" != "text/x-vcard;charset=UTF-8"
  {
    assert "application/news-groupinfo;charset=UTF-8"[0] != "text/plain;charset=UTF-8"[0];
    assert "application/news-groupinfo;charset=UTF-8"[0] != "text/x-vcard;charset=UTF-8"[0];
    assert "text/plain;charset=UTF-8"[5] != "text/x-vcard;charset=UTF-8"[5];
  }

  lemma DropOneCr(lead: string, rest: string)
    requires '\r' !in lead && '\r' !in rest
    ensures DropCr(lead + "\r\n" + rest) == lead + "\n" + rest
  {
    DropCrConcat(lead + "\r\n", rest);
    DropCrConcat(lead, "\r\n");
    DropCrPlain(lead);
    DropCrPlain(rest);
    assert "\r\n"[1..] == "\n" && "\n"[1..] == "";
  }

  lemma InfoContent(title: D.GroupName, description: string, posting: Posting)
    requires '\r' !in title && '\r' !in description
    ensures DropCr("For your newsgroups file:\r\n" + title + " " + description + Flag(posting)) == GroupInfo(title, description, posting)
  {
    var lead, rest := "For your newsgroups file:", title + " " + description + Flag(posting);
    DropOneCr(lead, rest);
    Leads(lead + "\r\n", title, description, posting);
    Leads(lead + "\n", title, description, posting);
    assert "For your newsgroups file:\r\n" == lead + "\r\n";
  }

  lemma Leads(lead: string, title: string, description: string, posting: Posting)
    ensures lead + title + " " + description + Flag(posting) == lead + (title + " " + description + Flag(posting))
  {
  }

  function Typed(contentType: string, content: string): Part {
    Part(map["Content-Type" := [contentType]], content)
  }

  lemma TwoOrThree(t0: string, x0: string, t1: string, x1: string, t2: string, x2: Option<string>)
    requires t0 != t1 && t0 != t2 && t1 != t2
    ensures var parts := [Typed(t0, x0), Typed(t1, x1)] + (if x2.None? then [] else [Typed(t2, x2.value)]);
            && Contents(parts, t0) == [DropCr(x0)]
            && Contents(parts, t2) == if x2.None? then [] else [DropCr(x2.value)]
  {
    var p, q := Typed(t0, x0), Typed(t1, x1);
    assert [] + [p] == [p] && [p] + [q] == [p, q] && [p, q] + [] == [p, q];
    ContentsMore([], p, t0);
    ContentsMore([], p, t2);
    ContentsMore([p], q, t0);
    ContentsMore([p], q, t2);
    if x2.Some? {
      ContentsMore([p, q], Typed(t2, x2.value), t0);
      ContentsMore([p, q], Typed(t2, x2.value), t2);
    }
  }

  lemma WrittenContents(owner: D.TorId, fullname: string, description: string, card: Option<string>, posting: Posting,
                        mid: D.MsgId, date: string)
    requires '\r' !in GroupTitle(owner, fullname) && '\r' !in description
    ensures var parts := Written(owner, fullname, description, card, posting, mid, date).parts;
            && Contents(parts, INFO_TYPE) == [GroupInfo(GroupTitle(owner, fullname), description, posting)]
            && Contents(parts, CARD_TYPE) == if card.None? then [] else [DropCr(card.value)]
  {
    var title := GroupTitle(owner, fullname);
    TypesDiffer();
    InfoContent(title, description, posting);
    TwoOrThree("application/news-groupinfo;charset=UTF-8", "For your newsgroups file:\r\n" + title + " " + description + Flag(posting),
               "text/plain;charset=UTF-8", "This is a system control message to create the news group " + title + ".\r\n",
               "text/x-vcard;charset=UTF-8", card);
  }

  lemma HeaderNames()
    ensures SIGNATURE_HEADER !in {"Approved", "From", "Message-Id", "Newsgroups", "Path", "Control"}
    ensures "Approved" !in {"From", "Message-Id", "Newsgroups", "Path", "Control"}
    ensures "From" !in {"Message-Id", "Newsgroups", "Path", "Control"} && "Path" !in {"Message-Id", "Newsgroups", "Control"}
    ensures {"Path", "From", "Message-Id", "Newsgroups", "Control"}
            !! {"Subject", "Date", "Content-Type", "Content-Transfer-Encoding"}
  {
    assert |SIGNATURE_HEADER| == 20 && |"Approved"| == 8 && |"From"| == 4 && |"Message-Id"| == 10 && |"Newsgroups"| == 10;
    assert |"Path"| == 4 && |"Control"| == 7 && |"Subject"| == 7 && |"Date"| == 4 && |"Content-Type"| == 12;
    assert |"Content-Transfer-Encoding"| == 25;
    assert "Path"[0] == 'P' && "From"[0] == 'F' && "Date"[0] == 'D' && "Control"[0] == 'C' && "Subject"[0] == 'S';
  }

  lemma GetSet(m: Message, k: string, value: string, j: string)
    ensures Get(Set(m, k, value).header, j) == if j == k then value else Get(m.header, j)
  {
  }

  /** Signing leaves every field but three alone. */
  lemma GetSigned(m: Message, key: nat, s: Scheme, media: Media, k: string)
    requires k != "Approved" && k != SIGNATURE_HEADER
    ensures Get(Sign(m, key, s, media).header, k) == if k == "From" then s.torId(key) else Get(m.header, k)
  {
    var a := Set(m, "Approved", s.pub(key));
    var b := Set(a, "From", s.torId(key));
    GetSet(m, "Approved", s.pub(key), k);
    GetSet(a, "From", s.torId(key), k);
    GetSet(b, SIGNATURE_HEADER, s.sign(key, SignedForm(b, media)), k);
  }

  lemma SignedArticle(m: Message, key: nat, s: Scheme, media: Media, read: CardReader)
    ensures var a := ArticleOf(Sign(m, key, s, media), read);
            && a.messageId == Get(m.header, "Message-Id") && a.from == s.torId(key) && a.newsgroups == Get(m.header, "Newsgroups")
            && a.path == Get(m.header, "Path") && a.control == Get(m.header, "Control")
            && a.infos == Contents(m.parts, INFO_TYPE)
            && a.card == var cards := Contents(m.parts, CARD_TYPE); if cards == [] then [] else read(cards[|cards| - 1])
  {
    HeaderNames();
    GetSigned(m, key, s, media, "Message-Id");
    GetSigned(m, key, s, media, "From");
    GetSigned(m, key, s, media, "Newsgroups");
    GetSigned(m, key, s, media, "Path");
    GetSigned(m, key, s, media, "Control");
  }

  lemma WrittenFields(owner: D.TorId, fullname: string, description: string, card: Option<string>, posting: Posting,
                      mid: D.MsgId, date: string)
    ensures var h, title := Written(owner, fullname, description, card, posting, mid, date).header, GroupTitle(owner, fullname);
            && Get(h, "Message-Id") == mid && Get(h, "Newsgroups") == title && Get(h, "Path") == ""
            && Get(h, "Control") == ControlHeader(title, posting)
  {
    HeaderNames();
    assert "newgroup " + GroupTitle(owner, fullname) + Flag(posting) == ControlHeader(GroupTitle(owner, fullname), posting);
  }

  /** What the relay reads of the message once it is signed. */
  lemma WrittenArticle(key: nat, fullname: string, description: string, card: Option<string>, posting: Posting,
                       mid: D.MsgId, date: string, s: Scheme, media: Media, read: CardReader)
    requires '\r' !in GroupTitle(s.torId(key), fullname) && '\r' !in description
    ensures var title := GroupTitle(s.torId(key), fullname);
            var a := ArticleOf(Sign(Written(s.torId(key), fullname, description, card, posting, mid, date), key, s, media), read);
            && a.messageId == mid && a.from == s.torId(key) && a.newsgroups == title && a.path == ""
            && a.control == ControlHeader(title, posting) && a.infos == [GroupInfo(title, description, posting)]
            && a.card == if card.None? then [] else read(DropCr(card.value))
  {
    WrittenContents(s.torId(key), fullname, description, card, posting, mid, date);
    WrittenFields(s.torId(key), fullname, description, card, posting, mid, date);
    SignedArticle(Written(s.torId(key), fullname, description, card, posting, mid, date), key, s, media, read);
  }

  lemma GroupMade(h: R.Hub, session: D.TorId, a: D.Article, title: D.GroupName, description: string, posting: Posting, id: D.TorId)
    requires R.ControlRuns(h, a, session) && title !in h.db.groups && Split(title, '.')[0] == a.from
    requires ' ' !in title && '\n' !in title && '\n' !in description
    requires a.control == ControlHeader(title, posting) && a.infos == [GroupInfo(title, description, posting)]
    ensures var d := R.CheckControl(h, a, session).0.db;
            && title in d.groups && G.CardGrants(a.from, a.card, id, D.GetPerms(d, id, title))
            && "description" in d.groups[title].config
            && d.groups[title].config["description"] == D.Words(Join(Split(description, ' ')[1..], ' '))
  {
    ControlWords(title, posting);
    DescriptionReadBack(title, description, posting);
    Access.NewgroupGrants(h, a, session, title, id);
  }

  /** From the writer to every node that acts on the message: the group is made under
      the owner's title, with exactly the rights that the card grants and with the
      description from its second word on. */
  lemma GroupAsWritten(key: nat, fullname: string, description: string, card: Option<string>, posting: Posting,
                       mid: D.MsgId, date: string, path: string, s: Scheme, media: Media, read: CardReader,
                       h: R.Hub, session: D.TorId, id: D.TorId)
    requires var owner, title := s.torId(key), GroupTitle(s.torId(key), fullname);
             && '.' !in owner && ' ' !in title && '\n' !in title && '\r' !in title && '\n' !in description && '\r' !in description
             && title !in h.db.groups
    requires var m := Sign(Written(s.torId(key), fullname, description, card, posting, mid, date), key, s, media);
             R.ControlRuns(h, ArticleOf(m, read).(path := path), session)
    ensures var m := Sign(Written(s.torId(key), fullname, description, card, posting, mid, date), key, s, media);
            var title, d := GroupTitle(s.torId(key), fullname), R.CheckControl(h, ArticleOf(m, read).(path := path), session).0.db;
            && title in d.groups
            && G.CardGrants(s.torId(key), if card.None? then [] else read(DropCr(card.value)), id, D.GetPerms(d, id, title))
            && "description" in d.groups[title].config
            && d.groups[title].config["description"] == D.Words(Join(Split(description, ' ')[1..], ' '))
  {
    var title := GroupTitle(s.torId(key), fullname);
    var m := Sign(Written(s.torId(key), fullname, description, card, posting, mid, date), key, s, media);
    WrittenArticle(key, fullname, description, card, posting, mid, date, s, media, read);
    TitleOwner(s.torId(key), fullname);
    GroupMade(h, session, ArticleOf(m, read).(path := path), title, description, posting, id);
  }

  lemma TitleOwner(owner: D.TorId, fullname: string)
    requires '.' !in owner
    ensures Split(GroupTitle(owner, fullname), '.')[0] == owner
  {
    var names := SplitOn(fullname, owner + ".");
    var rest := if |names| > 1 then names[1] else names[0];
    assert GroupTitle(owner, fullname) == owner + ['.'] + rest;
    SplitPrefix(owner, rest, '.');
  }
}
