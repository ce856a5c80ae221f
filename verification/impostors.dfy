/** Runs on which a stranger's messages act in another's name. */
module Impostors {
  import opened Options
  import opened Text
  import D = ArticleDb
  import opened ArticleRefs
  import R = Registry
  import B = Backend
  import opened Mail
  import opened MailHops
  import opened SignedArticles
  import opened Authorship
  import W = Witnesses

  // ---- a stranger's cancel --------------------------------------------------

  /** A new message to one group. */
  function Draft(mid: D.MsgId, g: D.GroupName, path: string, control: string): Message {
    Message(map["Message-Id" := [mid], "Newsgroups" := [g], "Path" := [path], "Control" := [control]], "", [])
  }

  lemma DraftArticle(n: Node, mid: D.MsgId, g: D.GroupName, path: string, control: string, key: nat, from: string)
    ensures var m := SignAs(Draft(mid, g, path, control), key, from, n.s, n.media);
            var a := ArticleOf(m, n.read);
            a == D.Article(mid, a.signature, from, g, path, control, [], [])
            && a.signature == n.s.sign(key, SignedForm(Set(Set(Draft(mid, g, path, control), "Approved", n.s.pub(key)), "From", from), n.media))
            && Get(m.header, "Approved") == n.s.pub(key)
  {
    assert |SIGNATURE_HEADER| == 20 && |"Approved"| == 8 && |"From"| == 4;
    assert |"Message-Id"| == 10 && |"Newsgroups"| == 10 && |"Path"| == 4 && |"Control"| == 7;
    assert "Path"[0] != "From"[0] && "Message-Id"[0] != "Newsgroups"[0];
  }

  /** A store with the one group g. */
  function OneGroup(me: D.TorId, g: D.GroupName): D.Db {
    D.NewGroup(D.Blank(me), g, "", []).0
  }

  predicate PlainGroup(g: D.GroupName) {
    ',' !in g && D.Ordinary(g) && TrimSpace(g) == g
  }

  lemma FiledFirst(me: D.TorId, g: D.GroupName, a: D.Article)
    requires PlainGroup(g) && a.newsgroups == g && a.path == "" && a.control == ""
    ensures var h := R.EmptyHub(me).(db := OneGroup(me, g));
            && Tables(h.db) && R.ControlRuns(h, a, me) && FreshSignature(h.db, a)
            && B.PostDone(h, h.(db := B.FileOne(h.db, a.(path := me + "!.POSTED"), g)), B.Session(me, B.Local), a, true, B.Posted(1))
  {
    B.FiledInOne(OneGroup(me, g), a.(path := me + "!.POSTED"), g, me);
  }

  /** A node posts an article with its key's From. */
  lemma FirstPost(n: Node, me: D.TorId, g: D.GroupName, mid: D.MsgId, k: nat) returns (h: R.Hub, x: Arrival)
    requires Ideal(n.s) && n.test.Unchecked? && PlainGroup(g)
    ensures h == R.EmptyHub(me).(db := OneGroup(me, g)) && Tables(h.db) && Deals(n, h, x) && x.out.Posted?
    ensures Authentic(x.m, k, n.s) && SignedBy(n, x.m, k) && x.m == SignAs(Draft(mid, g, "", ""), k, n.s.torId(k), n.s, n.media)
    ensures x.after == h.(db := B.FileOne(h.db, ArticleOf(x.m, n.read).(path := me + "!.POSTED"), g))
  {
    h := R.EmptyHub(me).(db := OneGroup(me, g));
    var m := SignAs(Draft(mid, g, "", ""), k, n.s.torId(k), n.s, n.media);
    VerifiedFrom(Draft(mid, g, "", ""), k, n.s.torId(k), n.s, n.media);
    DraftArticle(n, mid, g, "", "", k, n.s.torId(k));
    var a := ArticleOf(m, n.read);
    x := Arrival(B.Session(me, B.Local), m, h.(db := B.FileOne(h.db, a.(path := me + "!.POSTED"), g)), B.Posted(1));
    assert SignedBy(n, m, k) && Accepts(n, m);
    FiledFirst(me, g, a);
  }

  lemma CancelInOne(db: D.Db, a: D.Article, g: D.GroupName, sig: D.Sig, from: D.TorId)
    requires PlainGroup(g) && db.groups.Keys == {g} && db.groups[g].index == map[a.messageId := 1]
    requires db.rows == map[a.messageId := D.Row(1, sig, 1)] && db.files == map[sig := a] && a.signature == sig
    requires a.from == from && a.newsgroups == g
    ensures D.Runs(db, D.CmdCancelMessage(from, a.messageId, g))
    ensures var d := D.CancelMessage(db, from, a.messageId, g, D.AsWritten).0;
            && d.groups.Keys == {g} && a.messageId !in d.groups[g].index && d.rows.Keys == {a.messageId}
            && d.groups[g].number == db.groups[g].number && d.groups[g].perms == db.groups[g].perms
  {
    W.OneGroupTargets(db, g, a.messageId, from);
  }

  /** As the code is, a stranger's verified cancel takes another's article away: it
      carries the stranger's key and the author's id in From.  The two keys' signatures
      differ, as ideal ones do. */
  lemma StrangerTakesAway(n: Node, me: D.TorId, g: D.GroupName, mid: D.MsgId, other: D.MsgId, peer: D.TorId, j: nat, k: nat)
    returns (h: R.Hub, first: Arrival, x: Arrival)
    requires Ideal(n.s) && n.test.Unchecked? && PlainGroup(g) && j != k && mid != other && ' ' !in mid
    requires forall d, e :: n.s.sign(j, d) != n.s.sign(k, e)
    ensures Tables(h.db) && IsRun(n, h, [first]) && first.out.Posted? && Deals(n, Last(h, [first]), x)
    ensures SignedBy(n, first.m, k) && Authentic(first.m, k, n.s) && SignedBy(n, x.m, j)
    ensures Get(first.m.header, "Message-Id") == mid && TakesAway(first.after.db, x.after.db, mid)
  {
    h, first := FirstPost(n, me, g, mid, k);
    assert IsRun(n, h, [first]) by {
      assert [first][..0] == [];
    }
    DraftArticle(n, mid, g, "", "", k, n.s.torId(k));
    x := StrangerCancels(n, me, g, first.after, ArticleOf(first.m, n.read).(path := me + "!.POSTED"), other, peer, j);
  }

  /** The cancel acts, and is filed itself. */
  function Cancelled(h: R.Hub, a: D.Article, b: D.Article, g: D.GroupName): R.Hub
    requires D.Runs(h.db, D.CmdCancelMessage(a.from, a.messageId, g))
    requires g in D.CancelMessage(h.db, a.from, a.messageId, g, D.AsWritten).0.groups
  {
    h.(db := B.FileOne(D.CancelMessage(h.db, a.from, a.messageId, g, D.AsWritten).0, b.(path := h.db.me + "!" + b.path), g))
  }

  lemma CancelWords(mid: D.MsgId)
    requires ' ' !in mid
    ensures Split("cancel " + mid, ' ') == ["cancel", mid]
  {
    assert "cancel " + mid == "cancel" + [' '] + mid;
    SplitPrefix("cancel", mid, ' ');
    SplitPlain(mid, ' ');
  }

  lemma CancelFiled(h: R.Hub, a: D.Article, b: D.Article, me: D.TorId, g: D.GroupName, peer: D.TorId)
    requires PlainGroup(g) && h.db == B.FileOne(OneGroup(me, g), a, g) && a.newsgroups == g && ' ' !in a.messageId
    requires b.newsgroups == g && b.from == a.from && b.control == "cancel " + a.messageId && b.path != ""
    requires b.messageId != a.messageId && b.signature != a.signature
    ensures D.Runs(h.db, D.CmdCancelMessage(a.from, a.messageId, g))
    ensures g in D.CancelMessage(h.db, a.from, a.messageId, g, D.AsWritten).0.groups
    ensures R.ControlRuns(h, b, peer) && FreshSignature(h.db, b)
    ensures var c := D.CancelMessage(h.db, a.from, a.messageId, g, D.AsWritten).0;
            B.PostDone(h, Cancelled(h, a, b, g), B.Session(peer, B.Tor), b, true, B.Posted(c.lastId + 1))
    ensures TakesAway(h.db, Cancelled(h, a, b, g).db, a.messageId)
  {
    CancelWords(a.messageId);
    CancelInOne(h.db, a, g, a.signature, a.from);
    var c := D.CancelMessage(h.db, a.from, a.messageId, g, D.AsWritten).0;
    B.FiledInOne(c, b.(path := h.db.me + "!" + b.path), g, peer);
    assert g in Holders(h.db, a.messageId) && g !in Holders(Cancelled(h, a, b, g).db, a.messageId);
  }

  lemma StrangerCancels(n: Node, me: D.TorId, g: D.GroupName, h: R.Hub, a: D.Article, other: D.MsgId, peer: D.TorId, j: nat)
    returns (x: Arrival)
    requires Ideal(n.s) && n.test.Unchecked? && PlainGroup(g) && a.messageId != other && ' ' !in a.messageId
    requires h.db == B.FileOne(OneGroup(me, g), a, g) && a.newsgroups == g
    requires forall d :: n.s.sign(j, d) != a.signature
    ensures Deals(n, h, x) && SignedBy(n, x.m, j) && TakesAway(h.db, x.after.db, a.messageId)
  {
    var control, path := "cancel " + a.messageId, peer + "!.POSTED";
    var m := SignAs(Draft(other, g, path, control), j, a.from, n.s, n.media);
    VerifiedFrom(Draft(other, g, path, control), j, a.from, n.s, n.media);
    DraftArticle(n, other, g, path, control, j, a.from);
    var b := ArticleOf(m, n.read);
    assert SignedBy(n, m, j) && Accepts(n, m);
    CancelFiled(h, a, b, me, g, peer);
    var c := D.CancelMessage(h.db, a.from, a.messageId, g, D.AsWritten).0;
    x := Arrival(B.Session(peer, B.Tor), m, Cancelled(h, a, b, g), B.Posted(c.lastId + 1));
  }

  // ---- a stranger's newgroup ------------------------------------------------

  lemma NewgroupWords(owner: D.TorId)
    requires '.' !in owner && ' ' !in owner
    ensures Split("newgroup " + owner + ".x", ' ') == ["newgroup", owner + ".x"] && Split(owner + ".x", '.') == [owner, "x"]
  {
    assert "newgroup " + owner + ".x" == "newgroup" + [' '] + (owner + ".x");
    SplitPrefix("newgroup", owner + ".x", ' ');
    SplitPlain(owner + ".x", ' ');
    assert owner + ".x" == owner + ['.'] + "x";
    SplitPrefix(owner, "x", '.');
    SplitPlain("x", '.');
  }

  lemma NewgroupActs(me: D.TorId, a: D.Article, owner: D.TorId, peer: D.TorId)
    requires '.' !in owner && ' ' !in owner && a.control == "newgroup " + owner + ".x" && a.from == owner
    requires a.newsgroups == "" && a.infos == [] && a.path != ""
    ensures var h := R.EmptyHub(me);
            && Tables(h.db) && R.ControlRuns(h, a, peer) && FreshSignature(h.db, a)
            && B.PostDone(h, R.CheckControl(h, a, peer).0, B.Session(peer, B.Tor), a, true, B.Failed)
            && owner + ".x" in R.CheckControl(h, a, peer).0.db.groups && D.Owner(owner + ".x") == owner
  {
    NewgroupWords(owner);
    SplitPlain("", ',');
    assert R.OwnedNewgroup(a);
    var d := R.CheckControl(R.EmptyHub(me), a, peer).0.db;
    assert d.groups.Keys == {owner + ".x"};
    assert owner + ".x" != TrimSpace("");
    assert B.Postable(d, peer, "") == {};
  }

  /** As the code is, a stranger's verified newgroup creates a group of another's. */
  lemma StrangerCreates(n: Node, me: D.TorId, mid: D.MsgId, peer: D.TorId, j: nat, k: nat) returns (x: Arrival)
    requires Ideal(n.s) && OwnKeys(n.s) && n.test.Unchecked? && j != k && '.' !in n.s.torId(k) && ' ' !in n.s.torId(k)
    ensures Tables(R.EmptyHub(me).db) && Deals(n, R.EmptyHub(me), x) && SignedBy(n, x.m, j)
    ensures exists g :: g in x.after.db.groups && D.Owner(g) == n.s.torId(k) != n.s.torId(j)
  {
    var owner := n.s.torId(k);
    var control := "newgroup " + owner + ".x";
    var m := SignAs(Draft(mid, "", "p", control), j, owner, n.s, n.media);
    VerifiedFrom(Draft(mid, "", "p", control), j, owner, n.s, n.media);
    DraftArticle(n, mid, "", "p", control, j, owner);
    assert SignedBy(n, m, j) && Accepts(n, m);
    NewgroupActs(me, ArticleOf(m, n.read), owner, peer);
    x := Arrival(B.Session(peer, B.Tor), m, R.CheckControl(R.EmptyHub(me), ArticleOf(m, n.read), peer).0, B.Failed);
    assert owner + ".x" in x.after.db.groups;
  }
}
