/** The receiving half of the relay: NntpBackend.Post
    (internal/nntpbackend/nntpbackend.go). */
module Backend {
  import opened Options
  import opened Text
  import D = ArticleDb
  import opened ArticleStores
  import opened ArticleRefs
  import opened Peering
  import R = Registry
  import NewgroupText

  datatype ConnMode = Tor | Local

  /** Id is the peer's id on a Tor connection and the node's own otherwise. */
  datatype Session = Session(id: TorId, mode: ConnMode)

  datatype Outcome = Posted(id: int) | NotPermitted | Failed

  /** The Path header after this node has put itself in front; None is the refusal
      of a peer's article without one. */
  function NewPath(me: TorId, mode: ConnMode, path: string): Option<string> {
    match mode
    case Local => Some(if path == "" then me + "!.POSTED" else me + "!.POSTED!" + path)
    case Tor => if path == "" then None else Some(me + "!" + path)
  }

  /** Only an answered refusal keeps a session out; no answer lets it in. */
  predicate MayPost(db: D.Db, id: TorId, g: GroupName) {
    var p := D.GetPerms(db, id, g);
    p.None? || p.value.post
  }

  /** The groups an article is to be filed in: named, existing, and open to the session. */
  ghost function Postable(db: D.Db, id: TorId, newsgroups: string): set<GroupName> {
    set g | g in db.groups && db.groups[g].number != 0 && MayPost(db, id, g)
            && exists i :: 0 <= i < |Split(newsgroups, ',')| && TrimSpace(Split(newsgroups, ',')[i]) == g
  }

  /** The article is filed in exactly gs: one new row and file, one number in
      every index, as many references as groups. */
  ghost predicate FiledIn(db: D.Db, d: D.Db, a: D.Article, gs: set<GroupName>, id: int) {
    && id == db.lastId + 1
    && d == db.(rows := db.rows[a.messageId := D.Row(id, a.signature, |gs|)], lastId := id,
                files := db.files[a.signature := a], groups := d.groups)
    && d.groups.Keys == db.groups.Keys
    && (forall g | g in db.groups :: d.groups[g] ==
          if g in gs then db.groups[g].(index := db.groups[g].index[a.messageId := id]) else db.groups[g])
  }

  /** What Post leaves and answers once the control message has been dealt with. */
  ghost predicate Filed(db: D.Db, d: D.Db, a: D.Article, id: TorId, out: Outcome) {
    var gs := Postable(db, id, a.newsgroups);
    if gs == {} || a.messageId in db.rows then out == Failed && d == db
    else out.Posted? && FiledIn(db, d, a, gs, out.id)
  }

  /** What Post leaves and answers: an unverified article and a peer's article without
      Path are refused; otherwise the control message acts, and unless that fails the
      article is filed with its new Path. */
  ghost predicate PostDone(h: R.Hub, t: R.Hub, session: Session, a: D.Article, verified: bool, out: Outcome)
    requires R.ControlRuns(h, a, session.id)
  {
    var path := NewPath(h.db.me, session.mode, a.path);
    if !verified || path.None? then out == NotPermitted && t == h
    else
      var (c, ok) := R.CheckControl(h, a, session.id);
      && t.conns == c.conns && t.workers == c.workers
      && if ok then Filed(c.db, t.db, a.(path := path.value), session.id, out) else out == Failed && t.db == c.db
  }

  /** Only stored articles are indexed.  Unlike the reference counts, this
      survives every cancel. */
  ghost predicate IndexedRows(db: D.Db) {
    forall g, m | g in db.groups && m in db.groups[g].index :: m in db.rows
  }

  lemma {:induction false} CancelGroupsIndexedRows(db: D.Db, gs: seq<GroupName>, mid: MsgId, sig: Sig)
    requires IndexedRows(db) && forall g | g in gs :: g in db.groups
    ensures IndexedRows(D.CancelGroups(db, gs, mid, sig, D.AsWritten).0)
    decreases |gs|
  {
    if gs != [] {
      var (d, stop) := D.CancelInGroup(db, gs[0], mid, sig, D.AsWritten);
      assert IndexedRows(d);
      if !stop {
        CancelGroupsIndexedRows(d, gs[1..], mid, sig);
      }
    }
  }

  lemma ControlKeepsIndexedRows(h: R.Hub, a: D.Article, session: TorId)
    requires IndexedRows(h.db) && R.ControlRuns(h, a, session)
    ensures IndexedRows(R.CheckControl(h, a, session).0.db)
  {
    var words := Split(a.control, ' ');
    if words[0] == "cancel" && D.GetArticleById(h.db, words[1]).Found? {
      var found := D.GetArticleById(h.db, words[1]).article;
      if found.from == a.from {
        CancelGroupsIndexedRows(h.db, D.CancelTargets(h.db, a.from, words[1], a.newsgroups), words[1], found.signature);
      }
    }
  }

  /** Indexing in one more group. */
  lemma FiledStep(before: D.Db, db: D.Db, a: D.Article, done: set<GroupName>, g: GroupName, id: int)
    requires FiledIn(before, db, a, done, id) && g in before.groups && g !in done
    requires a.messageId !in before.groups[g].index
    ensures FiledIn(before, D.AddArticleToGroup(db, g, a.messageId, id).0, a, done + {g}, id)
    ensures D.AddArticleToGroup(db, g, a.messageId, id).1 == D.Done
  {
    var d := D.AddArticleToGroup(db, g, a.messageId, id).0;
    assert |done + {g}| == |done| + 1;
    assert d.rows == before.rows[a.messageId := D.Row(id, a.signature, |done + {g}|)];
    forall h | h in before.groups
      ensures d.groups[h] == if h in done + {g} then before.groups[h].(index := before.groups[h].index[a.messageId := id])
                             else before.groups[h]
    {
      assert db.groups[h] == if h in done then before.groups[h].(index := before.groups[h].index[a.messageId := id])
                             else before.groups[h];
    }
  }

  lemma FiledHolders(db: D.Db, d: D.Db, a: D.Article, gs: set<GroupName>, id: int)
    requires FiledIn(db, d, a, gs, id) && gs <= db.groups.Keys && Holders(db, a.messageId) == {}
    ensures Holders(d, a.messageId) == gs
    ensures forall m | m != a.messageId :: Holders(d, m) == Holders(db, m)
  {
    assert forall g | g in db.groups :: g !in Holders(db, a.messageId);
    forall m | m != a.messageId ensures Holders(d, m) == Holders(db, m) {
      assert forall g | g in db.groups :: m in d.groups[g].index <==> m in db.groups[g].index;
    }
  }

  lemma FiledIndexesOk(db: D.Db, d: D.Db, a: D.Article, gs: set<GroupName>, id: int)
    requires IndexesOk(db) && IndexedFilesOk(db) && FiledIn(db, d, a, gs, id) && a.messageId !in db.rows
    ensures IndexesOk(d) && IndexedFilesOk(d)
  {
    forall g, m | g in d.groups && m in d.groups[g].index
      ensures m in d.rows && d.groups[g].index[m] == d.rows[m].id && HasFile(d, m)
    {
      if m != a.messageId {
        assert m in db.groups[g].index && HasFile(db, m);
      }
    }
  }

  lemma FiledRowsOk(db: D.Db, d: D.Db, a: D.Article, gs: set<GroupName>, id: int)
    requires RowsOk(db) && FreshSignature(db, a) && a.messageId !in db.rows && FiledIn(db, d, a, gs, id)
    ensures RowsOk(d)
  {
    var stored := D.StoreArticle(db, a).0;
    StoreRowsOk(db, a);
    assert SameRows(stored.rows, d.rows);
    SameRowsOk(stored, d);
  }

  /** Row and file are those of storing the article; only its count differs. */
  lemma FiledRows(db: D.Db, d: D.Db, a: D.Article, gs: set<GroupName>, id: int)
    requires RowsOk(db) && FilesOk(db) && FreshSignature(db, a) && a.messageId !in db.rows
    requires FiledIn(db, d, a, gs, id)
    ensures RowsOk(d) && FilesOk(d)
  {
    var stored := D.StoreArticle(db, a).0;
    FiledRowsOk(db, d, a, gs, id);
    StoreFilesOk(db, a);
    assert SameRows(stored.rows, d.rows);
    FewerFilesOk(stored, d);
  }

  /** A successful Post files the article in precisely the named, existing groups
      the session may post to, repeats in the header or not: all under one new
      number, counted once each, readable, and with every other article's groups
      as they were; and the reference invariant holds on. */
  lemma PostFilesExactly(db: D.Db, d: D.Db, a: D.Article, id: TorId, out: Outcome)
    requires ArticleRefs.Valid(db) && FreshSignature(db, a) && Filed(db, d, a, id, out) && out.Posted?
    ensures ArticleRefs.Valid(d)
    ensures Holders(d, a.messageId) == Postable(db, id, a.newsgroups)
    ensures d.rows[a.messageId].refs == |Postable(db, id, a.newsgroups)| > 0
    ensures forall g | g in Holders(d, a.messageId) :: d.groups[g].index[a.messageId] == out.id
    ensures out.id > db.lastId && D.GetArticleById(d, a.messageId) == D.Found(out.id, a)
    ensures forall m | m != a.messageId :: Holders(d, m) == Holders(db, m)
  {
    var gs := Postable(db, id, a.newsgroups);
    StoreIndexesOk(db, a);
    FiledHolders(db, d, a, gs, out.id);
    FiledValid(db, d, a, gs, out.id);
  }

  lemma FiledValid(db: D.Db, d: D.Db, a: D.Article, gs: set<GroupName>, id: int)
    requires ArticleRefs.Valid(db) && FreshSignature(db, a) && a.messageId !in db.rows && FiledIn(db, d, a, gs, id)
    requires Holders(d, a.messageId) == gs && forall m | m != a.messageId :: Holders(d, m) == Holders(db, m)
    ensures ArticleRefs.Valid(d)
  {
    FiledRows(db, d, a, gs, id);
    FiledIndexesOk(db, d, a, gs, id);
    SameIndexesRefs(db, d, a.messageId);
  }

  /** The article filed in the one group g. */
  function FileOne(db: D.Db, a: D.Article, g: GroupName): D.Db
    requires g in db.groups
  {
    var id := db.lastId + 1;
    db.(rows := db.rows[a.messageId := D.Row(id, a.signature, 1)], lastId := id, files := db.files[a.signature := a],
        groups := db.groups[g := db.groups[g].(index := db.groups[g].index[a.messageId := id])])
  }

  lemma FiledInOne(db: D.Db, a: D.Article, g: GroupName, id: TorId)
    requires ',' !in g && TrimSpace(g) == g && g in db.groups && db.groups[g].number != 0 && MayPost(db, id, g)
    requires a.newsgroups == g && a.messageId !in db.rows
    ensures Filed(db, FileOne(db, a, g), a, id, Posted(db.lastId + 1))
  {
    SplitPlain(g, ',');
    assert TrimSpace(Split(a.newsgroups, ',')[0]) == g;
    assert Postable(db, id, g) == {g};
  }

  class NntpBackend {
    const store: ArticleStore
    const peers: Peers

    ghost predicate Valid()
      reads this, peers, store
    {
      peers.store == store && IndexedRows(store.View())
    }

    constructor (store: ArticleStore, peers: Peers)
      ensures this.store == store && this.peers == peers
    {
      this.store, this.peers := store, peers;
    }

    method CheckControl(a: D.Article, session: TorId) returns (ok: bool)
      requires peers.store == store && R.ControlRuns(peers.View(), a, session)
      modifies peers, store
      ensures (peers.View(), ok) == R.CheckControl(old(peers.View()), a, session)
    {
      var words := Split(a.control, ' ');
      if words[0] == "cancel" {
        var r := store.CancelMessage(a.from, words[1], a.newsgroups);
        return true;
      }
      if words[0] != "newgroup" || Split(words[1], '.')[0] != a.from {
        return true;
      }
      var description := NewgroupText.ReadInfoParts(a.control, a.infos);
      var r := store.NewGroup(words[1], description, a.card);
      if r == D.Error {
        return false;
      }
      ok := true;
      if R.PeeringName(words[1], session) {
        ok := peers.AddPeer(Split(words[1], '.')[2]);
      }
    }

    method PostableGroups(id: TorId, newsgroups: string) returns (gs: set<GroupName>)
      ensures gs == Postable(store.View(), id, newsgroups)
    {
      var split := Split(newsgroups, ',');
      gs := {};
      for i := 0 to |split|
        invariant forall g :: g in gs <==>
          g in store.groups && store.groups[g].number != 0 && MayPost(store.View(), id, g)
          && exists j :: 0 <= j < i && TrimSpace(split[j]) == g
      {
        var group := TrimSpace(split[i]);
        var perms := store.GetPerms(id, group);
        if perms.None? || perms.value.post {
          var n := store.GetGroupNumber(group);
          if n.Number? && n.n != 0 {
            gs := gs + {group};
          }
        }
      }
    }

    /** Index a stored, unindexed article in every group of gs, in any order. */
    method AddToGroups(gs: set<GroupName>, a: D.Article, id: int, ghost before: D.Db)
      requires gs <= before.groups.Keys
      requires FiledIn(before, store.View(), a, {}, id)
      requires forall g | g in before.groups :: a.messageId !in before.groups[g].index
      modifies store
      ensures FiledIn(before, store.View(), a, gs, id)
    {
      var done: set<GroupName> := {};
      while done != gs
        invariant done <= gs
        invariant FiledIn(before, store.View(), a, done, id)
        decreases gs - done
      {
        var g :| g in gs && g !in done;
        AddToGroup(g, a, id, before, done);
        done := done + {g};
      }
    }

    method AddToGroup(g: GroupName, a: D.Article, id: int, ghost before: D.Db, ghost done: set<GroupName>)
      requires FiledIn(before, store.View(), a, done, id) && g in before.groups && g !in done
      requires a.messageId !in before.groups[g].index
      modifies store
      ensures FiledIn(before, store.View(), a, done + {g}, id)
    {
      FiledStep(before, store.View(), a, done, g, id);
      var r := store.AddArticleToGroup(g, a.messageId, id);
    }

    method FileArticle(a: D.Article, id: TorId) returns (out: Outcome)
      requires IndexedRows(store.View())
      modifies store
      ensures Filed(old(store.View()), store.View(), a, id, out)
      ensures IndexedRows(store.View())
    {
      var gs := PostableGroups(id, a.newsgroups);
      if gs == {} {
        return Failed;
      }
      ghost var before := store.View();
      var r := store.StoreArticle(a);
      if r == D.Error {
        return Failed;
      }
      AddToGroups(gs, a, r.n, before);
      out := Posted(r.n);
    }

    /** Post: verify, put this node in front of the Path, act on a control
        message, then store the article once and index it in every group it may
        go to.  `verified` is the answer of the signature check. */
    method Post(session: Session, a: D.Article, verified: bool) returns (out: Outcome)
      requires Valid() && R.ControlRuns(peers.View(), a, session.id)
      modifies peers, store
      ensures Valid()
      ensures PostDone(old(peers.View()), peers.View(), session, a, verified, out)
    {
      var path := NewPath(store.me, session.mode, a.path);
      if !verified || path.None? {
        return NotPermitted;
      }
      ControlKeepsIndexedRows(peers.View(), a, session.id);
      var ok := CheckControl(a, session.id);
      if !ok {
        return Failed;
      }
      out := FileArticle(a.(path := path.value), session.id);
    }
  }
}
