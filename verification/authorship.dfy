/** Who can take an article out of a node's groups, and who can create one: the
    cancel and newgroup messages of pkg/messages/control.go, over every run of posts.
    The signature covers From and says which key signed; what Verify leaves out is
    whether From is the id of that key. */
module Authorship {
  import opened Options
  import opened Text
  import D = ArticleDb
  import opened ArticleRefs
  import R = Registry
  import B = Backend
  import opened Mail
  import opened MailHops
  import opened SignedArticles

  /** As the code is, or with From compared to the id of the key in Approved. */
  datatype FromTest = Unchecked | Compared

  datatype Node = Node(s: Scheme, media: Media, read: CardReader, test: FromTest)

  /** A message posted in a session, and what the Post left and answered. */
  datatype Arrival = Arrival(session: B.Session, m: Message, after: R.Hub, out: B.Outcome)

  /** Distinct keys are written in distinct ways and have distinct ids. */
  ghost predicate OwnKeys(s: Scheme) {
    OwnIds(s) && forall j: nat, k: nat :: s.pub(j) == s.pub(k) ==> j == k
  }

  ghost predicate SignedBy(n: Node, m: Message, key: nat) {
    Get(m.header, "Approved") == n.s.pub(key) && Verify(m, n.s, n.media)
  }

  ghost predicate Accepts(n: Node, m: Message) {
    Verify(m, n.s, n.media) && (n.test.Compared? ==> exists k: nat :: Authentic(m, k, n.s))
  }

  ghost predicate Deals(n: Node, h: R.Hub, x: Arrival) {
    var a := ArticleOf(x.m, n.read);
    && R.ControlRuns(h, a, x.session.id) && FreshSignature(h.db, a)
    && B.PostDone(h, x.after, x.session, a, Accepts(n, x.m), x.out)
  }

  function Last(h: R.Hub, xs: seq<Arrival>): R.Hub {
    if xs == [] then h else xs[|xs| - 1].after
  }

  ghost predicate IsRun(n: Node, h: R.Hub, xs: seq<Arrival>)
    decreases |xs|
  {
    xs == [] || (IsRun(n, h, xs[..|xs| - 1]) && Deals(n, Last(h, xs[..|xs| - 1]), xs[|xs| - 1]))
  }

  // ---- what a node keeps of what was posted ---------------------------------

  /** The row of a posted article, and its file as long as there is one. */
  predicate Kept(db: D.Db, a: D.Article) {
    && a.messageId in db.rows && db.rows[a.messageId].signature == a.signature
    && (a.signature in db.files ==> db.files[a.signature] == a.(path := db.files[a.signature].path))
  }

  ghost predicate Tables(db: D.Db) {
    RowsOk(db) && FilesOk(db)
  }

  /** Rows stay, and files only go. */
  ghost predicate Shrinks(db: D.Db, d: D.Db) {
    && SameRows(db.rows, d.rows) && d.lastId == db.lastId
    && forall f | f in d.files :: f in db.files && d.files[f] == db.files[f]
  }

  lemma ShrinksTables(db: D.Db, d: D.Db)
    requires Tables(db) && Shrinks(db, d)
    ensures Tables(d)
  {
    SameRowsOk(db, d);
    FewerFilesOk(db, d);
  }

  /** d is db but for mid's index entries, its count and the file sig. */
  ghost predicate Touches(db: D.Db, d: D.Db, mid: D.MsgId, sig: D.Sig) {
    && Shrinks(db, d) && d.groups.Keys == db.groups.Keys
    && (forall g, m | g in db.groups && m != mid :: m in d.groups[g].index <==> m in db.groups[g].index)
    && (forall f | f in db.files && f != sig :: f in d.files)
  }

  lemma TouchesTwice(db: D.Db, e: D.Db, d: D.Db, mid: D.MsgId, sig: D.Sig)
    requires Touches(db, e, mid, sig) && Touches(e, d, mid, sig)
    ensures Touches(db, d, mid, sig)
  {
  }

  lemma OneTouches(db: D.Db, g: D.GroupName, mid: D.MsgId, sig: D.Sig)
    requires g in db.groups
    ensures Touches(db, D.CancelInGroup(db, g, mid, sig, D.AsWritten).0, mid, sig)
  {
  }

  lemma {:induction false} CancelGroupsTouches(db: D.Db, gs: seq<D.GroupName>, mid: D.MsgId, sig: D.Sig)
    requires forall g | g in gs :: g in db.groups
    ensures Touches(db, D.CancelGroups(db, gs, mid, sig, D.AsWritten).0, mid, sig)
    decreases |gs|
  {
    if gs != [] {
      var (e, stop) := D.CancelInGroup(db, gs[0], mid, sig, D.AsWritten);
      OneTouches(db, gs[0], mid, sig);
      if !stop {
        CancelGroupsTouches(e, gs[1..], mid, sig);
        TouchesTwice(db, e, D.CancelGroups(e, gs[1..], mid, sig, D.AsWritten).0, mid, sig);
      }
    }
  }

  lemma CancelShrinks(db: D.Db, from: D.TorId, mid: D.MsgId, newsgroups: string)
    requires D.Runs(db, D.CmdCancelMessage(from, mid, newsgroups))
    ensures Shrinks(db, D.CancelMessage(db, from, mid, newsgroups, D.AsWritten).0)
  {
    if D.GetArticleById(db, mid).Found? {
      var a := D.GetArticleById(db, mid).article;
      CancelGroupsTouches(db, D.CancelTargets(db, from, mid, newsgroups), mid, a.signature);
    }
  }

  lemma ControlShrinks(h: R.Hub, a: D.Article, session: D.TorId)
    requires R.ControlRuns(h, a, session)
    ensures Shrinks(h.db, R.CheckControl(h, a, session).0.db)
  {
    var words := Split(a.control, ' ');
    if words[0] == "cancel" {
      CancelShrinks(h.db, a.from, words[1], a.newsgroups);
    }
  }

  lemma ShrinksKept(db: D.Db, d: D.Db, a: D.Article)
    requires Shrinks(db, d) && Kept(db, a)
    ensures Kept(d, a)
  {
  }

  lemma FiledKept(db: D.Db, d: D.Db, b: D.Article, id: D.TorId, out: B.Outcome, a: D.Article)
    requires RowsOk(db) && FreshSignature(db, b) && B.Filed(db, d, b, id, out) && Kept(db, a)
    ensures Kept(d, a)
  {
  }

  lemma FiledTables(db: D.Db, d: D.Db, b: D.Article, id: D.TorId, out: B.Outcome)
    requires Tables(db) && FreshSignature(db, b) && B.Filed(db, d, b, id, out)
    ensures Tables(d)
  {
    if out.Posted? {
      B.FiledRows(db, d, b, B.Postable(db, id, b.newsgroups), out.id);
    }
  }

  lemma DealsKeeps(n: Node, h: R.Hub, x: Arrival, posted: D.Article)
    requires Tables(h.db) && Deals(n, h, x) && Kept(h.db, posted)
    ensures Kept(x.after.db, posted)
  {
    var a := ArticleOf(x.m, n.read);
    var path := B.NewPath(h.db.me, x.session.mode, a.path);
    if Accepts(n, x.m) && path.Some? {
      var (c, ok) := R.CheckControl(h, a, x.session.id);
      ControlShrinks(h, a, x.session.id);
      ShrinksTables(h.db, c.db);
      ShrinksKept(h.db, c.db, posted);
      if ok {
        FiledKept(c.db, x.after.db, a.(path := path.value), x.session.id, x.out, posted);
      }
    }
  }

  lemma DealsTables(n: Node, h: R.Hub, x: Arrival)
    requires Tables(h.db) && Deals(n, h, x)
    ensures Tables(x.after.db) && (x.out.Posted? ==> Kept(x.after.db, ArticleOf(x.m, n.read)))
  {
    var a := ArticleOf(x.m, n.read);
    var path := B.NewPath(h.db.me, x.session.mode, a.path);
    if Accepts(n, x.m) && path.Some? {
      var (c, ok) := R.CheckControl(h, a, x.session.id);
      ControlShrinks(h, a, x.session.id);
      ShrinksTables(h.db, c.db);
      if ok {
        FiledTables(c.db, x.after.db, a.(path := path.value), x.session.id, x.out);
      }
    }
  }

  lemma {:induction false} RunTables(n: Node, h: R.Hub, xs: seq<Arrival>)
    requires Tables(h.db) && IsRun(n, h, xs)
    ensures Tables(Last(h, xs).db)
    decreases |xs|
  {
    if xs != [] {
      var front := xs[..|xs| - 1];
      RunTables(n, h, front);
      DealsTables(n, Last(h, front), xs[|xs| - 1]);
    }
  }

  lemma LastKeeps(n: Node, h: R.Hub, xs: seq<Arrival>, posted: D.Article)
    requires Tables(h.db) && IsRun(n, h, xs) && xs != [] && Kept(Last(h, xs[..|xs| - 1]).db, posted)
    ensures Kept(Last(h, xs).db, posted)
  {
    RunTables(n, h, xs[..|xs| - 1]);
    DealsKeeps(n, Last(h, xs[..|xs| - 1]), xs[|xs| - 1], posted);
  }

  lemma LastKept(n: Node, h: R.Hub, xs: seq<Arrival>)
    requires Tables(h.db) && IsRun(n, h, xs) && xs != [] && xs[|xs| - 1].out.Posted?
    ensures Kept(Last(h, xs).db, ArticleOf(xs[|xs| - 1].m, n.read))
  {
    RunTables(n, h, xs[..|xs| - 1]);
    DealsTables(n, Last(h, xs[..|xs| - 1]), xs[|xs| - 1]);
  }

  /** Every row that a post of the run has made is kept. */
  lemma {:induction false} RunKeeps(n: Node, h: R.Hub, xs: seq<Arrival>, i: nat)
    requires Tables(h.db) && IsRun(n, h, xs) && i < |xs| && xs[i].out.Posted?
    ensures Kept(Last(h, xs).db, ArticleOf(xs[i].m, n.read))
    decreases |xs|
  {
    if i < |xs| - 1 {
      RunKeeps(n, h, xs[..|xs| - 1], i);
      LastKeeps(n, h, xs, ArticleOf(xs[i].m, n.read));
    } else {
      LastKept(n, h, xs);
    }
  }

  // ---- cancels --------------------------------------------------------------

  /** mid is taken out of a group, or its file goes. */
  ghost predicate TakesAway(db: D.Db, d: D.Db, mid: D.MsgId) {
    || (exists g :: g in Holders(db, mid) && g !in Holders(d, mid))
    || (HasFile(db, mid) && !HasFile(d, mid))
  }

  lemma CancelTakesAway(db: D.Db, from: D.TorId, target: D.MsgId, newsgroups: string, mid: D.MsgId)
    requires Tables(db) && D.Runs(db, D.CmdCancelMessage(from, target, newsgroups))
    requires TakesAway(db, D.CancelMessage(db, from, target, newsgroups, D.AsWritten).0, mid)
    ensures HasFile(db, mid) && db.files[db.rows[mid].signature].from == from
  {
    if D.GetArticleById(db, target).Found? {
      FoundFile(db, target);
      CancelGroupsTouches(db, D.CancelTargets(db, from, target, newsgroups), target, db.rows[target].signature);
      assert mid == target;
    }
  }

  lemma NoCancelTakesNothing(h: R.Hub, a: D.Article, session: D.TorId, mid: D.MsgId)
    requires R.ControlRuns(h, a, session) && Split(a.control, ' ')[0] != "cancel"
    ensures !TakesAway(h.db, R.CheckControl(h, a, session).0.db, mid)
  {
    var d := R.CheckControl(h, a, session).0.db;
    assert d.rows == h.db.rows && d.files == h.db.files;
    assert forall g | g in h.db.groups :: g in d.groups && d.groups[g].index == h.db.groups[g].index;
  }

  lemma ControlTakesAway(h: R.Hub, a: D.Article, session: D.TorId, mid: D.MsgId)
    requires Tables(h.db) && R.ControlRuns(h, a, session)
    requires TakesAway(h.db, R.CheckControl(h, a, session).0.db, mid)
    ensures HasFile(h.db, mid) && h.db.files[h.db.rows[mid].signature].from == a.from
  {
    var words := Split(a.control, ' ');
    if words[0] == "cancel" {
      CancelTakesAway(h.db, a.from, words[1], a.newsgroups, mid);
    } else {
      NoCancelTakesNothing(h, a, session, mid);
    }
  }

  lemma FilingTakesNothing(db: D.Db, d: D.Db, b: D.Article, id: D.TorId, out: B.Outcome, mid: D.MsgId)
    requires B.Filed(db, d, b, id, out)
    ensures !TakesAway(db, d, mid)
  {
  }

  lemma TakenInOne(db: D.Db, c: D.Db, d: D.Db, mid: D.MsgId)
    requires TakesAway(db, d, mid) && !TakesAway(c, d, mid)
    ensures TakesAway(db, c, mid)
  {
  }

  /** Whatever takes an article away was accepted and bears its From. */
  lemma DealTakesAway(n: Node, h: R.Hub, x: Arrival, mid: D.MsgId)
    requires Tables(h.db) && Deals(n, h, x) && TakesAway(h.db, x.after.db, mid)
    ensures Accepts(n, x.m)
    ensures HasFile(h.db, mid) && h.db.files[h.db.rows[mid].signature].from == Get(x.m.header, "From")
  {
    var a := ArticleOf(x.m, n.read);
    var path := B.NewPath(h.db.me, x.session.mode, a.path);
    var (c, ok) := R.CheckControl(h, a, x.session.id);
    if ok {
      FilingTakesNothing(c.db, x.after.db, a.(path := path.value), x.session.id, x.out, mid);
    }
    TakenInOne(h.db, c.db, x.after.db, mid);
    ControlTakesAway(h, a, x.session.id, mid);
  }

  /** In every run of posts: when a message takes away an article that was posted
      before, both were verified and their From texts are the same. */
  lemma TakerHasFrom(n: Node, h: R.Hub, xs: seq<Arrival>, x: Arrival, i: nat)
    requires Tables(h.db) && IsRun(n, h, xs) && Deals(n, Last(h, xs), x)
    requires i < |xs| && xs[i].out.Posted?
    requires TakesAway(Last(h, xs).db, x.after.db, Get(xs[i].m.header, "Message-Id"))
    ensures Accepts(n, x.m) && Accepts(n, xs[i].m)
    ensures Get(x.m.header, "From") == Get(xs[i].m.header, "From")
  {
    RunTables(n, h, xs);
    RunKeeps(n, h, xs, i);
    DealTakesAway(n, Last(h, xs), x, Get(xs[i].m.header, "Message-Id"));
    PostedAccepted(n, h, xs, i);
  }

  lemma {:induction false} PostedAccepted(n: Node, h: R.Hub, xs: seq<Arrival>, i: nat)
    requires IsRun(n, h, xs) && i < |xs| && xs[i].out.Posted?
    ensures Accepts(n, xs[i].m)
    decreases |xs|
  {
    if i < |xs| - 1 {
      PostedAccepted(n, h, xs[..|xs| - 1], i);
    }
  }

  /** As the code is: a message signed with key j that takes away an article which key
      k signed, From and all, is by the article's author if and only if its own From
      is the id of its own key, the test that is left out. */
  lemma AuthorTakesAway(n: Node, h: R.Hub, xs: seq<Arrival>, x: Arrival, i: nat, j: nat, k: nat)
    requires OwnKeys(n.s) && Tables(h.db) && IsRun(n, h, xs) && Deals(n, Last(h, xs), x)
    requires i < |xs| && xs[i].out.Posted? && Authentic(xs[i].m, k, n.s)
    requires TakesAway(Last(h, xs).db, x.after.db, Get(xs[i].m.header, "Message-Id")) && SignedBy(n, x.m, j)
    ensures j == k <==> Authentic(x.m, j, n.s)
  {
    TakerHasFrom(n, h, xs, x, i);
    if Authentic(x.m, j, n.s) {
      AuthorCancels(x.m, xs[i].m, j, k, n.s, n.read);
    }
  }

  /** With that test at every receipt, whoever takes an article away has signed it:
      in every run of posts, cancels from any session included. */
  lemma OnlyAuthorsTakeAway(n: Node, h: R.Hub, xs: seq<Arrival>, x: Arrival, i: nat, j: nat, k: nat)
    requires n.test.Compared? && OwnKeys(n.s) && Tables(h.db) && IsRun(n, h, xs) && Deals(n, Last(h, xs), x)
    requires i < |xs| && xs[i].out.Posted? && SignedBy(n, xs[i].m, k)
    requires TakesAway(Last(h, xs).db, x.after.db, Get(xs[i].m.header, "Message-Id")) && SignedBy(n, x.m, j)
    ensures j == k
  {
    TakerHasFrom(n, h, xs, x, i);
    ComparedIsAuthentic(n, x.m, j);
    ComparedIsAuthentic(n, xs[i].m, k);
    AuthorTakesAway(n, h, xs, x, i, j, k);
  }

  lemma ComparedIsAuthentic(n: Node, m: Message, key: nat)
    requires n.test.Compared? && OwnKeys(n.s) && Accepts(n, m) && SignedBy(n, m, key)
    ensures Authentic(m, key, n.s)
  {
    var k: nat :| Authentic(m, k, n.s);
    assert k == key;
  }

  // ---- newgroups ------------------------------------------------------------

  lemma ControlCreates(h: R.Hub, a: D.Article, session: D.TorId, g: D.GroupName)
    requires R.ControlRuns(h, a, session) && g !in h.db.groups && g in R.CheckControl(h, a, session).0.db.groups
    ensures D.Owner(g) == a.from
  {
    var words := Split(a.control, ' ');
    if words[0] == "cancel" && D.GetArticleById(h.db, words[1]).Found? {
      var sig := D.GetArticleById(h.db, words[1]).article.signature;
      CancelGroupsTouches(h.db, D.CancelTargets(h.db, a.from, words[1], a.newsgroups), words[1], sig);
    }
  }

  /** A group that a message creates is From's. */
  lemma CreatorHasFrom(n: Node, h: R.Hub, x: Arrival, g: D.GroupName)
    requires Deals(n, h, x) && g !in h.db.groups && g in x.after.db.groups
    ensures Accepts(n, x.m) && D.Owner(g) == Get(x.m.header, "From")
  {
    var a := ArticleOf(x.m, n.read);
    assert g in R.CheckControl(h, a, x.session.id).0.db.groups;
    ControlCreates(h, a, x.session.id, g);
  }

  /** As the code is: a group that a message signed with key j creates is j's own if
      and only if its From is the id of its key; with the test it always is. */
  lemma OwnerCreates(n: Node, h: R.Hub, x: Arrival, g: D.GroupName, j: nat)
    requires OwnKeys(n.s) && Deals(n, h, x) && g !in h.db.groups && g in x.after.db.groups && SignedBy(n, x.m, j)
    ensures D.Owner(g) == n.s.torId(j) <==> Authentic(x.m, j, n.s)
    ensures n.test.Compared? ==> D.Owner(g) == n.s.torId(j)
  {
    CreatorHasFrom(n, h, x, g);
    if n.test.Compared? {
      ComparedIsAuthentic(n, x.m, j);
    }
  }
}
