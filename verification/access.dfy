/** Who is sent what, who may post where, and what a newgroup message grants: the
    relay's decisions traced back to the cards of its groups. */
module Access {
  import opened Options
  import opened Text
  import D = ArticleDb
  import opened ArticleRefs
  import A = ArticleRuns
  import G = ArticleGroups
  import opened Permissions
  import P = Peering
  import R = Registry
  import B = Backend
  import NewgroupText

  // ---- sending --------------------------------------------------------------

  /** A peer is sent the next article if and only if the Path does not list it and it
      owns one of the named groups or the card that made the group lets it read. */
  lemma TurnByCards(me: D.TorId, ops: seq<A.Op>, g: D.GroupName, peer: D.TorId, c: int, num: int, a: D.Article)
    requires A.IsRun(D.Blank(me), ops)
    requires var db := A.Final(D.Blank(me), ops);
             && g in db.groups && D.GroupConfigGetInt64(db, g, "LastMessage") == D.Number(c)
             && D.GetNextArticle(db, c) == D.Found(num, a)
    ensures P.NextTurn(A.Final(D.Blank(me), ops), false, g, peer) == P.Idle
    ensures P.NextTurn(A.Final(D.Blank(me), ops), true, g, peer)
            == if peer in Split(a.path, '!') then P.SkippedPath(num)
               else if exists i :: 0 <= i < |Split(a.newsgroups, ',')| && Reads(ops, Split(a.newsgroups, ',')[i], peer)
               then P.Attempted(num, a)
               else P.SkippedPerms(num)
  {
    ReadableByCards(me, ops, peer, a.newsgroups);
  }

  lemma ReadableByCards(me: D.TorId, ops: seq<A.Op>, peer: D.TorId, newsgroups: string)
    requires A.IsRun(D.Blank(me), ops)
    ensures P.Readable(A.Final(D.Blank(me), ops), peer, newsgroups)
            <==> exists i :: 0 <= i < |Split(newsgroups, ',')| && Reads(ops, Split(newsgroups, ',')[i], peer)
  {
    var db, named := A.Final(D.Blank(me), ops), Split(newsgroups, ',');
    forall i | 0 <= i < |named| ensures P.MayRead(db, peer, named[i]) <==> Reads(ops, named[i], peer) {
      ReadsExactly(me, ops, named[i], peer);
    }
    if i :| 0 <= i < |named| && Reads(ops, named[i], peer) {
      assert P.MayRead(db, peer, Split(newsgroups, ',')[i]);
    }
    if i :| 0 <= i < |named| && P.MayRead(db, peer, named[i]) {
      assert Reads(ops, Split(newsgroups, ',')[i], peer);
    }
  }

  // ---- posting --------------------------------------------------------------

  /** The Newsgroups header names g, blanks around it or not. */
  predicate Named(a: D.Article, g: D.GroupName) {
    exists i :: 0 <= i < |Split(a.newsgroups, ',')| && TrimSpace(Split(a.newsgroups, ',')[i]) == g
  }

  lemma PostableByCards(me: D.TorId, ops: seq<A.Op>, a: D.Article, id: D.TorId)
    requires A.IsRun(D.Blank(me), ops)
    ensures forall g :: g in B.Postable(A.Final(D.Blank(me), ops), id, a.newsgroups) <==> Named(a, g) && Posts(ops, g, id)
  {
    var db := A.Final(D.Blank(me), ops);
    GroupNumbers(D.Blank(me), ops);
    forall g ensures g in B.Postable(db, id, a.newsgroups) <==> Named(a, g) && Posts(ops, g, id) {
      PostsExactly(me, ops, g, id);
    }
  }

  lemma ProperRunValid(me: D.TorId, ops: seq<A.Op>)
    requires A.IsRun(D.Blank(me), ops) && A.ProperRun(D.Blank(me), ops)
    ensures Valid(A.Final(D.Blank(me), ops))
  {
    A.BlankFollows(me);
    A.RunFollows(D.Blank(me), ops, {});
  }

  /** A verified article that is no control message is posted if and only if it is new
      and names a group that the session owns, or that no entry of the group's card
      keeps it from posting to; it is then filed in exactly those groups, and a Post
      that fails leaves everything as it was. */
  lemma PostByCards(me: D.TorId, ops: seq<A.Op>, h: R.Hub, t: R.Hub, session: B.Session, a: D.Article, out: B.Outcome)
    requires A.IsRun(D.Blank(me), ops) && A.ProperRun(D.Blank(me), ops) && h.db == A.Final(D.Blank(me), ops)
    requires Split(a.control, ' ')[0] !in {"cancel", "newgroup", "sendme"} && (session.mode.Tor? ==> a.path != "")
    requires B.PostDone(h, t, session, a, true, out)
    ensures out.Posted? <==> a.messageId !in h.db.rows && exists g :: Named(a, g) && Posts(ops, g, session.id)
    ensures out.Posted? ==> forall g :: g in Holders(t.db, a.messageId) <==> Named(a, g) && Posts(ops, g, session.id)
    ensures !out.Posted? ==> out == B.Failed && t == h
  {
    PostableByCards(me, ops, a, session.id);
    var gs := B.Postable(h.db, session.id, a.newsgroups);
    assert gs == {} <==> !exists g :: Named(a, g) && Posts(ops, g, session.id) by {
      if g :| Named(a, g) && Posts(ops, g, session.id) {
        assert g in gs;
      }
      if g :| g in gs {
        assert Named(a, g) && Posts(ops, g, session.id);
      }
    }
    if out.Posted? {
      ProperRunValid(me, ops);
      var b := a.(path := B.NewPath(h.db.me, session.mode, a.path).value);
      NoHolders(h.db, a.messageId);
      B.FiledHolders(h.db, t.db, b, gs, out.id);
    }
  }

  lemma NoHolders(db: D.Db, mid: D.MsgId)
    requires IndexesOk(db) && mid !in db.rows
    ensures Holders(db, mid) == {}
  {
    forall g | g in db.groups ensures mid !in db.groups[g].index {
    }
  }

  /** An article is not permitted if and only if it is unverified or comes from a peer
      without a Path, and then nothing changes, control message or not. */
  lemma RefusedExactly(h: R.Hub, t: R.Hub, session: B.Session, a: D.Article, verified: bool, out: B.Outcome)
    requires R.ControlRuns(h, a, session.id) && B.PostDone(h, t, session, a, verified, out)
    ensures out == B.NotPermitted <==> !verified || (session.mode.Tor? && a.path == "")
    ensures out == B.NotPermitted ==> t == h
  {
  }

  // ---- newgroup messages ----------------------------------------------------

  /** A newgroup message makes a new group with exactly the rights its card grants and
      the description it carries, and leaves the answers for all other groups alone. */
  lemma NewgroupGrants(h: R.Hub, a: D.Article, session: D.TorId, name: D.GroupName, id: D.TorId)
    requires R.ControlRuns(h, a, session) && name !in h.db.groups
    requires var words := Split(a.control, ' ');
             words[0] == "newgroup" && |words| >= 2 && words[1] == name && Split(name, '.')[0] == a.from
    ensures var d := R.CheckControl(h, a, session).0.db;
            && name in d.groups && G.CardGrants(a.from, a.card, id, D.GetPerms(d, id, name))
            && "description" in d.groups[name].config
            && d.groups[name].config["description"] == D.Words(NewgroupText.ReadInfos(a.control, a.infos).s)
            && d.groups[name].index == map[]
            && (forall g | g in h.db.groups :: g in d.groups && D.GetPerms(d, id, g) == D.GetPerms(h.db, id, g))
  {
    var description := NewgroupText.ReadInfos(a.control, a.infos).s;
    var made, d := D.NewGroup(h.db, name, description, a.card).0, R.CheckControl(h, a, session).0.db;
    NewGroupAnswers(h.db, name, description, a.card, id);
    NewgroupMakes(h, a, session, name);
    AddPeerAnswers(made, d, id);
  }

  /** Groups, permissions, indexes and descriptions are the same. */
  ghost predicate SameGroups(db: D.Db, d: D.Db) {
    && d.groups.Keys == db.groups.Keys
    && (forall g | g in db.groups :: d.groups[g].perms == db.groups[g].perms && d.groups[g].index == db.groups[g].index)
    && (forall g | g in db.groups && "description" in db.groups[g].config ::
          "description" in d.groups[g].config && d.groups[g].config["description"] == db.groups[g].config["description"])
  }

  lemma AddPeerSameGroups(h: R.Hub, torid: D.TorId)
    requires torid == h.db.me || D.Runs(h.db, D.CmdAddPeer(torid))
    ensures SameGroups(h.db, R.PeersAddPeer(h, torid).0.db)
  {
    SettingsDiffer();
  }

  lemma SettingsDiffer()
    ensures "description" != "Feed" && "description" != "ControlMessages" && "description" != "LastMessage"
  {
    assert |"description"| == 11 && |"Feed"| == 4 && |"ControlMessages"| == 15 && "LastMessage"[0] != "description"[0];
  }

  /** What the store has after the message is what NewGroup made, but for the settings
      of peers and the list of peers. */
  lemma NewgroupMakes(h: R.Hub, a: D.Article, session: D.TorId, name: D.GroupName)
    requires R.ControlRuns(h, a, session) && name !in h.db.groups
    requires var words := Split(a.control, ' ');
             words[0] == "newgroup" && |words| >= 2 && words[1] == name && Split(name, '.')[0] == a.from
    ensures R.OwnedNewgroup(a) && NewgroupText.ReadInfos(a.control, a.infos).Value?
    ensures var made := D.NewGroup(h.db, name, NewgroupText.ReadInfos(a.control, a.infos).s, a.card).0;
            SameGroups(made, R.CheckControl(h, a, session).0.db)
  {
    var made := D.NewGroup(h.db, name, NewgroupText.ReadInfos(a.control, a.infos).s, a.card).0;
    if R.PeeringName(name, session) {
      AddPeerSameGroups(h.(db := made), Split(name, '.')[2]);
    }
  }

  lemma NewGroupAnswers(db: D.Db, name: D.GroupName, description: string, card: seq<D.CardEntry>, id: D.TorId)
    requires name !in db.groups
    ensures var d := D.NewGroup(db, name, description, card).0;
            && G.CardGrants(Split(name, '.')[0], card, id, D.GetPerms(d, id, name))
            && (forall g | g in db.groups :: g in d.groups && D.GetPerms(d, id, g) == D.GetPerms(db, id, g))
  {
    G.NewGroupGrants(db, name, description, card, id);
  }

  /** Registering a peer changes no answer. */
  lemma AddPeerAnswers(db: D.Db, d: D.Db, id: D.TorId)
    requires d.groups.Keys == db.groups.Keys && forall g | g in db.groups :: d.groups[g].perms == db.groups[g].perms
    ensures forall g :: D.GetPerms(d, id, g) == D.GetPerms(db, id, g)
  {
    assert d.groups == map[] <==> db.groups == map[] by {
      if d.groups == map[] {
        assert db.groups.Keys == {};
      }
      if db.groups == map[] {
        assert d.groups.Keys == {};
      }
    }
  }

  /** The same through Post: a verified newgroup message has made its group when Post
      answers, whether the message itself was filed or not. */
  lemma PostedNewgroup(h: R.Hub, t: R.Hub, session: B.Session, a: D.Article, out: B.Outcome, name: D.GroupName, id: D.TorId)
    requires R.ControlRuns(h, a, session.id) && name !in h.db.groups && (session.mode.Tor? ==> a.path != "")
    requires var words := Split(a.control, ' ');
             words[0] == "newgroup" && |words| >= 2 && words[1] == name && Split(name, '.')[0] == a.from
    requires B.PostDone(h, t, session, a, true, out)
    ensures name in t.db.groups && G.CardGrants(a.from, a.card, id, D.GetPerms(t.db, id, name))
    ensures "description" in t.db.groups[name].config
            && t.db.groups[name].config["description"] == D.Words(NewgroupText.ReadInfos(a.control, a.infos).s)
  {
    var (c, ok) := R.CheckControl(h, a, session.id);
    NewgroupGrants(h, a, session.id, name, id);
    if ok {
      FiledSettings(c.db, t.db, a.(path := B.NewPath(h.db.me, session.mode, a.path).value), session.id, out);
      AddPeerAnswers(c.db, t.db, id);
    }
  }

  lemma FiledSettings(db: D.Db, d: D.Db, a: D.Article, id: D.TorId, out: B.Outcome)
    requires B.Filed(db, d, a, id, out)
    ensures d.groups.Keys == db.groups.Keys
    ensures forall g | g in db.groups :: d.groups[g].perms == db.groups[g].perms && d.groups[g].config == db.groups[g].config
  {
  }

  /** Only a newgroup of the session's own id for one of its peer groups registers a
      peer, and no other than the one it names. */
  lemma RegisteredBy(h: R.Hub, a: D.Article, session: D.TorId)
    requires R.ControlRuns(h, a, session)
    ensures var t := R.CheckControl(h, a, session).0;
            t.db.peers != h.db.peers ==>
              && Split(a.control, ' ')[0] == "newgroup" && a.from == session
              && var parts := Split(Split(a.control, ' ')[1], '.');
                 && |parts| == 3 && parts[0] == session && parts[1] == "peers" && parts[2] != h.db.me
                 && parts[2] !in h.db.peers && t.db.peers == h.db.peers + [parts[2]]
  {
    if Split(a.control, ' ')[0] == "cancel" {
      R.CancelSettings(h.db, a.from, Split(a.control, ' ')[1], a.newsgroups);
    }
  }

  /** An owner's newgroup for a group that there is fails, and changes nothing. */
  lemma NewgroupTwice(h: R.Hub, t: R.Hub, session: B.Session, a: D.Article, out: B.Outcome, name: D.GroupName)
    requires R.ControlRuns(h, a, session.id) && name in h.db.groups && (session.mode.Tor? ==> a.path != "")
    requires var words := Split(a.control, ' ');
             words[0] == "newgroup" && |words| >= 2 && words[1] == name && Split(name, '.')[0] == a.from
    requires B.PostDone(h, t, session, a, true, out)
    ensures out == B.Failed && t == h
  {
    assert R.OwnedNewgroup(a);
  }

  /** The newgroup message that peers two nodes: all rights to the owner, reading,
      replying and posting to the peer, nothing to anybody else. */
  lemma PeeringGrants(h: R.Hub, a: D.Article, me: D.TorId, peer: D.TorId, id: D.TorId)
    requires R.ControlRuns(h, a, me) && me + ".peers." + peer !in h.db.groups
    requires '.' !in me && a.from == me && peer != "group"
    requires var words := Split(a.control, ' ');
             words[0] == "newgroup" && |words| >= 2 && words[1] == me + ".peers." + peer
    requires a.card == G.PeerCard(peer)
    ensures D.GetPerms(R.CheckControl(h, a, me).0.db, id, me + ".peers." + peer)
            == Some(if id == me then D.Perms(true, true, true, true, true)
                    else if id == peer then D.Perms(true, true, true, false, false)
                    else D.Perms(false, false, false, false, false))
  {
    G.PeerGroupOwner(me, peer);
    NewgroupGrants(h, a, me, me + ".peers." + peer, id);
    assert G.LastEntry(a.card, peer, 1) && G.LastEntry(a.card, "group", 0);
  }
}
