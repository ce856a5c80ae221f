/** Every run of a network of stores is a run of the flood. */
module RelaysFlood {
  import opened Options
  import opened Text
  import D = ArticleDb
  import opened ArticleRefs
  import P = Peering
  import R = Registry
  import B = Backend
  import F = Flood
  import opened FloodSafety
  import opened Refinement
  import opened Relays

  // ---- the relation ---------------------------------------------------------

  predicate WireMatches(wire: Wire, p: F.Phase) {
    match wire
    case Quiet => p.Idle?
    case Sent(num, a) => num > 0 && a.path != "" && p == F.Sent(num, CopyOf(a))
    case Answered(num, a, out) =>
      num > 0 && a.path != "" && p.Answered? && p.num == num && p.copy == CopyOf(a) && (p.verdict.Stored? <==> out.Posted?)
  }

  predicate LineMatches(w: World, l: Line, k: F.Link) {
    && l.src == k.src && l.dst == k.dst && l.up == k.up && WireMatches(l.wire, k.phase)
    && l.src in w.sites && CursorOf(w.sites[l.src].db, l.dst) == D.Number(k.cursor)
  }

  predicate StrayMatches(c: Stray, d: F.Loose) {
    c.src == d.src && c.dst == d.dst && c.num == d.num && c.article.path != "" && CopyOf(c.article) == d.copy
  }

  ghost predicate SitesMatch(w: World, f: F.Net) {
    && w.sites.Keys == f.nodes.Keys
    && forall n | n in w.sites :: Represents(w.sites[n].db, f.nodes[n])
  }

  ghost predicate LinesMatch(w: World, f: F.Net) {
    |w.lines| == |f.links| && forall i | 0 <= i < |w.lines| :: LineMatches(w, w.lines[i], f.links[i])
  }

  ghost predicate StraysMatch(w: World, f: F.Net) {
    |w.strays| == |f.loose| && forall j | 0 <= j < |w.strays| :: StrayMatches(w.strays[j], f.loose[j])
  }

  ghost predicate Matches(w: World, f: F.Net) {
    SitesMatch(w, f) && LinesMatch(w, f) && StraysMatch(w, f)
  }

  ghost predicate WorldOk(w: World) {
    SitesOk(w) && NewPeersAtZero(w) && LinesRegistered(w)
  }

  // ---- the flood's steps for a step of the network --------------------------

  ghost function MayFile(w: World, src: Id, dst: Id, a: D.Article, out: B.Outcome): set<(Id, Id, D.MsgId)>
    requires dst in w.sites
  {
    if out.Posted? || a.messageId in w.sites[dst].db.rows then {(dst, src, a.messageId)} else {}
  }

  ghost function MayPass(w: World, f: F.Net, i: nat): set<(Id, Id, D.MsgId)>
    requires OnLine(w, i)
  {
    var turn := TurnOf(w, w.lines[i]);
    if turn.Attempted? then {(w.lines[i].src, w.lines[i].dst, turn.article.messageId)} else {}
  }

  function TurnNumber(t: P.Turn): nat {
    match t
    case SkippedPath(num) => if num > 0 then num else 0
    case SkippedPerms(num) => if num > 0 then num else 0
    case Attempted(num, _) => if num > 0 then num else 0
    case Idle => 0
  }

  ghost function Sim(w: World, f: F.Net, s: Step): seq<F.Step>
    requires Enabled(w, s) && LinesRegistered(w) && (s.ReceiveStray? ==> w.strays[s.j].dst in w.sites)
  {
    match s
    case Post(n, a, _, _, out) => if out.Posted? then [F.LocalPost(n, a.messageId, PathOf(a.path))] else []
    case Serve(n, peer) => [F.AddLink(n, peer)]
    case Turn(i) => [F.Reconfigure(MayPass(w, f, i), f.mayPost), F.Send(i, TurnNumber(TurnOf(w, w.lines[i])))]
    case Receive(i, _, _, out) =>
      [F.Reconfigure(f.mayRead, MayFile(w, w.lines[i].src, w.lines[i].dst, w.lines[i].wire.article, out)), F.Receive(i)]
    case Finish(i) => [F.Finish(i)]
    case Fail(i) => [F.Fail(i)]
    case Interrupt(i) => [F.Interrupt(i)]
    case Connect(i) => [F.Connect(i)]
    case Restart(n, now) => [F.Restart(n, now)]
    case ReceiveStray(j, _, _, out) =>
      [F.Reconfigure(f.mayRead, MayFile(w, w.strays[j].src, w.strays[j].dst, w.strays[j].article, out)), F.ReceiveLoose(j)]
    case DropStray(j) => [F.DropLoose(j)]
  }

  /** fs leads the flood from f to g. */
  ghost predicate Leads(f: F.Net, fs: seq<F.Step>, g: F.Net) {
    F.IsRun(f, fs) && F.Final(f, fs) == g
  }

  lemma OneLeads(f: F.Net, x: F.Step)
    requires F.Enabled(f, x)
    ensures Leads(f, [x], F.Next(f, x))
  {
    assert [x][1..] == [];
  }

  lemma TwoLead(f: F.Net, x: F.Step, y: F.Step)
    requires F.Enabled(f, x) && F.Enabled(F.Next(f, x), y)
    ensures Leads(f, [x, y], F.Next(F.Next(f, x), y))
  {
    assert [x, y][1..] == [y];
    OneLeads(F.Next(f, x), y);
  }

  // ---- dealing with an article ----------------------------------------------

  /** What a Post does to a node, for the flood. */
  lemma PostSite(n: Id, h: R.Hub, t: R.Hub, session: B.Session, a: D.Article, verified: bool, out: B.Outcome, node: F.Node)
    requires SiteOk(n, h) && Represents(h.db, node) && !IsCancel(a) && FreshSignature(h.db, a)
    requires R.ControlRuns(h, a, session.id) && B.PostDone(h, t, session, a, verified, out)
    ensures SiteOk(n, t) && CursorsKept(h.db, t.db)
    ensures out.Posted? ==> B.NewPath(n, session.mode, a.path).Some? && a.messageId !in h.db.rows
    ensures out.Posted? ==> Represents(t.db, F.File(node, F.Copy(a.messageId, PathOf(B.NewPath(n, session.mode, a.path).value))))
    ensures !out.Posted? ==> Represents(t.db, node)
  {
    var path := B.NewPath(n, session.mode, a.path);
    if verified && path.Some? {
      var (c, ok) := R.CheckControl(h, a, session.id);
      ControlKeeps(h, a, session.id);
      if ok {
        var b := a.(path := path.value);
        NewPathIs(n, session.mode, a.path);
        SameArticles(h.db, c.db, node);
        FiledSite(n, c.db, t.db, b, session.id, out, node);
        CursorsKeptTrans(h.db, c.db, t.db);
      } else {
        SameArticles(h.db, c.db, node);
      }
    }
  }

  lemma SameArticles(db: D.Db, d: D.Db, node: F.Node)
    requires d.rows == db.rows && d.files == db.files && d.lastId == db.lastId
    ensures Represents(db, node) ==> Represents(d, node)
    ensures RowsOk(db) ==> RowsOk(d)
  {
    if Represents(db, node) {
      forall m | m in d.rows ensures RowShown(d, node, m) {
        assert RowShown(db, node, m);
      }
    }
  }

  lemma FiledSite(n: Id, db: D.Db, d: D.Db, a: D.Article, id: Id, out: B.Outcome, node: F.Node)
    requires RowsOk(db) && Represents(db, node) && FreshSignature(db, a) && a.path != "" && B.Filed(db, d, a, id, out)
    ensures RowsOk(d) && CursorsKept(db, d)
    ensures out.Posted? ==> a.messageId !in db.rows && Represents(d, F.File(node, F.Copy(a.messageId, PathOf(a.path))))
    ensures !out.Posted? ==> Represents(d, node)
  {
    FilingRefinesDelivery(db, d, a, id, out, node);
    FiledKeepsCursors(db, d, a, id, out);
    RepresentsHolds(db, node, a.messageId);
    if out.Posted? {
      B.FiledRowsOk(db, d, a, B.Postable(db, id, a.newsgroups), out.id);
    }
  }

  /** The node would file the article if it were new: signature, Path and control
      message are in order, and its tables open one of the named groups to the session. */
  ghost predicate Admits(h: R.Hub, session: B.Session, a: D.Article, verified: bool)
    requires R.ControlRuns(h, a, session.id)
  {
    && verified && B.NewPath(h.db.me, session.mode, a.path).Some?
    && var (c, ok) := R.CheckControl(h, a, session.id);
       ok && B.Postable(c.db, session.id, a.newsgroups) != {}
  }

  /** The permission that a receipt gets in the flood is what the receiver's tables
      say, for an article that it does not have. */
  lemma FiledByTables(w: World, src: Id, dst: Id, a: D.Article, verified: bool, after: R.Hub, out: B.Outcome)
    requires SitesOk(w) && Takes(w, dst, B.Session(src, B.Tor), a, verified, after, out)
    ensures var h := w.sites[dst];
            && (out.Posted? <==> Admits(h, B.Session(src, B.Tor), a, verified) && a.messageId !in h.db.rows)
            && (a.messageId !in h.db.rows ==>
                  (MayFile(w, src, dst, a, out) == {(dst, src, a.messageId)} <==> Admits(h, B.Session(src, B.Tor), a, verified)))
  {
    ControlKeeps(w.sites[dst], a, src);
  }

  /** The permission that a turn gets is what the sender's tables say, for an article
      whose Path does not name the peer. */
  lemma PassedByTables(w: World, f: F.Net, i: nat, num: int, a: D.Article)
    requires Enabled(w, Turn(i))
    requires var l := w.lines[i];
             var db := w.sites[l.src].db;
             D.GetNextArticle(db, D.GroupConfigGetInt64(db, D.PeerGroup(l.src, l.dst), "LastMessage").n) == D.Found(num, a)
             && l.dst !in Split(a.path, '!')
    ensures var l := w.lines[i];
            (l.src, l.dst, a.messageId) in MayPass(w, f, i) <==> P.Readable(w.sites[l.src].db, l.dst, a.newsgroups)
  {
  }

  // ---- what a step leaves as it was -----------------------------------------

  predicate SameEnds(a: seq<Line>, b: seq<Line>) {
    |a| == |b| && forall i | 0 <= i < |a| :: a[i].src == b[i].src && a[i].dst == b[i].dst
  }

  lemma ReplacedEnds(lines: seq<Line>, i: nat, l: Line)
    requires i < |lines| && l.src == lines[i].src && l.dst == lines[i].dst
    ensures SameEnds(lines, lines[i := l])
  {
  }

  lemma EndsKeepLines(w: World, v: World)
    requires SameEnds(w.lines, v.lines)
    ensures SameLines(w, v)
  {
    forall a, b ensures HasLine(w, a, b) <==> HasLine(v, a, b) {
      if i :| 0 <= i < |w.lines| && w.lines[i].src == a && w.lines[i].dst == b {
        assert v.lines[i].src == a && v.lines[i].dst == b;
      }
      if i :| 0 <= i < |v.lines| && v.lines[i].src == a && v.lines[i].dst == b {
        assert w.lines[i].src == a && w.lines[i].dst == b;
      }
    }
  }

  ghost predicate CursorsSame(w: World, v: World) {
    forall i | 0 <= i < |w.lines| && w.lines[i].src in w.sites :: w.lines[i].src in v.sites &&
      CursorOf(v.sites[w.lines[i].src].db, w.lines[i].dst) == CursorOf(w.sites[w.lines[i].src].db, w.lines[i].dst)
  }

  ghost predicate SameLines(w: World, v: World) {
    forall a, b {:trigger HasLine(v, a, b)} :: HasLine(w, a, b) <==> HasLine(v, a, b)
  }

  lemma ReplacedNewPeers(w: World, v: World, n: Id, t: R.Hub)
    requires NewPeersAtZero(w) && n in w.sites && v.sites == w.sites[n := t] && SameLines(w, v)
    requires CursorsKept(w.sites[n].db, t.db)
    ensures NewPeersAtZero(v)
  {
    forall o, p | o in v.sites && p in v.sites[o].db.peers && !HasLine(v, o, p)
      ensures CursorOf(v.sites[o].db, p) == D.Number(0)
    {
      assert !HasLine(w, o, p);
    }
  }

  lemma ReplacedLines(w: World, v: World, n: Id, t: R.Hub)
    requires LinesRegistered(w) && n in w.sites && v.sites == w.sites[n := t] && SameEnds(w.lines, v.lines)
    requires CursorsKept(w.sites[n].db, t.db)
    ensures LinesRegistered(v) && CursorsSame(w, v)
  {
  }

  /** One node's store changed, its peers' cursors kept. */
  lemma SiteReplaced(w: World, v: World, n: Id, t: R.Hub)
    requires WorldOk(w) && n in w.sites && v.sites == w.sites[n := t] && SameEnds(w.lines, v.lines)
    requires SiteOk(n, t) && CursorsKept(w.sites[n].db, t.db)
    ensures WorldOk(v) && CursorsSame(w, v)
  {
    EndsKeepLines(w, v);
    ReplacedNewPeers(w, v, n, t);
    ReplacedLines(w, v, n, t);
    ReplacedSites(w, v, n, t);
  }

  lemma ReplacedSites(w: World, v: World, n: Id, t: R.Hub)
    requires SitesOk(w) && v.sites == w.sites[n := t] && SiteOk(n, t)
    ensures SitesOk(v)
  {
  }

  /** The stores are the same, and the lines join the same nodes. */
  lemma EndsKeepWorld(w: World, v: World)
    requires WorldOk(w) && v.sites == w.sites && SameEnds(w.lines, v.lines)
    ensures WorldOk(v)
  {
    EndsKeepLines(w, v);
    SameNewPeers(w, v);
    SameRegistered(w, v);
  }

  lemma SameNewPeers(w: World, v: World)
    requires NewPeersAtZero(w) && v.sites == w.sites && SameLines(w, v)
    ensures NewPeersAtZero(v)
  {
    forall o, p | o in v.sites && p in v.sites[o].db.peers && !HasLine(v, o, p)
      ensures CursorOf(v.sites[o].db, p) == D.Number(0)
    {
      assert !HasLine(w, o, p);
    }
  }

  lemma SameRegistered(w: World, v: World)
    requires LinesRegistered(w) && v.sites == w.sites && SameEnds(w.lines, v.lines)
    ensures LinesRegistered(v)
  {
  }

  // ---- a cursor moves -------------------------------------------------------

  /** Node n wrote a cursor for its peer. */
  ghost predicate Wrote(db: D.Db, d: D.Db, peer: Id, num: int) {
    && d.me == db.me && d.peers == db.peers && d.rows == db.rows && d.files == db.files && d.lastId == db.lastId
    && CursorOf(d, peer) == D.Number(num)
    && forall p | p != peer :: CursorOf(d, p) == CursorOf(db, p)
  }

  lemma WrittenWrites(h: R.Hub, peer: Id, num: int)
    requires D.PeerGroup(h.db.me, peer) in h.db.groups
    ensures Wrote(h.db, Written(h, peer, num).db, peer, num)
  {
    var t := Written(h, peer, num);
    forall p | p != peer ensures CursorOf(t.db, p) == CursorOf(h.db, p) {
      if D.PeerGroup(h.db.me, p) == D.PeerGroup(h.db.me, peer) {
        PeerGroupInjective(h.db.me, p, peer);
      }
    }
  }

  lemma WroteSiteOk(n: Id, h: R.Hub, t: R.Hub, peer: Id, num: int)
    requires SiteOk(n, h) && Wrote(h.db, t.db, peer, num)
    ensures SiteOk(n, t)
  {
  }

  lemma WroteNewPeers(w: World, v: World, n: Id, t: R.Hub, peer: Id, num: int)
    requires NewPeersAtZero(w) && n in w.sites && v.sites == w.sites[n := t] && SameLines(w, v)
    requires Wrote(w.sites[n].db, t.db, peer, num) && HasLine(w, n, peer)
    ensures NewPeersAtZero(v)
  {
    forall o, p | o in v.sites && p in v.sites[o].db.peers && !HasLine(v, o, p)
      ensures CursorOf(v.sites[o].db, p) == D.Number(0)
    {
      assert !HasLine(w, o, p);
    }
  }

  lemma WroteLines(w: World, v: World, i: nat, t: R.Hub, num: int)
    requires LinesRegistered(w) && i < |w.lines| && SameEnds(w.lines, v.lines)
    requires v.sites == w.sites[w.lines[i].src := t] && Wrote(w.sites[w.lines[i].src].db, t.db, w.lines[i].dst, num)
    ensures LinesRegistered(v)
    ensures forall j | 0 <= j < |w.lines| && j != i ::
              CursorOf(v.sites[w.lines[j].src].db, w.lines[j].dst) == CursorOf(w.sites[w.lines[j].src].db, w.lines[j].dst)
  {
    forall j | 0 <= j < |w.lines| && j != i
      ensures CursorOf(v.sites[w.lines[j].src].db, w.lines[j].dst) == CursorOf(w.sites[w.lines[j].src].db, w.lines[j].dst)
    {
      assert w.lines[j].src != w.lines[i].src || w.lines[j].dst != w.lines[i].dst;
    }
  }

  lemma WroteSitesMatch(w: World, v: World, f: F.Net, n: Id, t: R.Hub, peer: Id, num: int)
    requires SitesMatch(w, f) && n in w.sites && v.sites == w.sites[n := t] && Wrote(w.sites[n].db, t.db, peer, num)
    ensures SitesMatch(v, f)
  {
    SameArticles(w.sites[n].db, t.db, f.nodes[n]);
  }

  lemma MovedOk(w: World, v: World, i: nat, t: R.Hub, num: int)
    requires WorldOk(w) && i < |w.lines| && SameEnds(w.lines, v.lines)
    requires v.sites == w.sites[w.lines[i].src := t] && w.lines[i].src in w.sites
    requires Wrote(w.sites[w.lines[i].src].db, t.db, w.lines[i].dst, num)
    ensures WorldOk(v)
  {
    var n := w.lines[i].src;
    EndsKeepLines(w, v);
    assert HasLine(w, n, w.lines[i].dst);
    WroteSiteOk(n, w.sites[n], t, w.lines[i].dst, num);
    ReplacedSites(w, v, n, t);
    WroteNewPeers(w, v, n, t, w.lines[i].dst, num);
    WroteLines(w, v, i, t, num);
  }

  // ---- one step -------------------------------------------------------------

  /** Link i moved its cursor. */
  ghost predicate LinkMoved(f: F.Net, g: F.Net, i: nat, k: F.Link, num: nat) {
    && i < |f.links| && g.links == f.links[i := k] && g.nodes == f.nodes
    && k.src == f.links[i].src && k.dst == f.links[i].dst && k.up == f.links[i].up && k.cursor == num && k.phase.Idle?
  }

  lemma MovedLinesMatch(w: World, v: World, f: F.Net, g: F.Net, i: nat, t: R.Hub, k: F.Link, num: nat)
    requires LinesRegistered(w) && LinesMatch(w, f) && i < |w.lines| && LinkMoved(f, g, i, k, num)
    requires v.lines == w.lines[i := w.lines[i].(wire := Quiet)]
    requires v.sites == w.sites[w.lines[i].src := t] && Wrote(w.sites[w.lines[i].src].db, t.db, w.lines[i].dst, num)
    ensures LinesMatch(v, g)
  {
    WroteLines(w, v, i, t, num);
    forall j | 0 <= j < |v.lines| ensures LineMatches(v, v.lines[j], g.links[j]) {
      assert LineMatches(w, w.lines[j], f.links[j]);
    }
  }

  /** Line i moved its cursor to num; the flood's link did the same. */
  lemma MovedMatches(w: World, v: World, f: F.Net, g: F.Net, i: nat, k: F.Link, num: nat)
    requires WorldOk(w) && SitesMatch(w, f) && LinesMatch(w, f) && OnLine(w, i) && LinkMoved(f, g, i, k, num)
    requires v.sites == Moved(w, i, num).sites && v.lines == Moved(w, i, num).lines
    ensures WorldOk(v) && SitesMatch(v, g) && LinesMatch(v, g)
  {
    var l := w.lines[i];
    var t := Written(w.sites[l.src], l.dst, num);
    WrittenWrites(w.sites[l.src], l.dst, num);
    ReplacedEnds(w.lines, i, l.(wire := Quiet));
    MovedOk(w, v, i, t, num);
    assert SitesMatch(v, g) by {
      WroteSitesMatch(w, v, f, l.src, t, l.dst, num);
      assert g.nodes == f.nodes;
    }
    MovedLinesMatch(w, v, f, g, i, t, k, num);
  }

  lemma FinishMatches(w: World, f: F.Net, i: nat)
    requires WorldOk(w) && Matches(w, f) && Enabled(w, Finish(i))
    ensures F.Enabled(f, F.Finish(i)) && WorldOk(Next(w, Finish(i))) && Matches(Next(w, Finish(i)), F.Next(f, F.Finish(i)))
  {
    assert LineMatches(w, w.lines[i], f.links[i]);
    var k := f.links[i];
    MovedMatches(w, Next(w, Finish(i)), f, F.Next(f, F.Finish(i)), i, F.Advance(k, k.phase.num, k.phase.verdict), k.phase.num);
  }

  lemma StrayAdded(w: World, v: World, f: F.Net, g: F.Net, c: Stray, d: F.Loose)
    requires StraysMatch(w, f) && StrayMatches(c, d) && v.strays == w.strays + [c] && g.loose == f.loose + [d]
    ensures StraysMatch(v, g)
  {
  }

  lemma FailMatches(w: World, f: F.Net, i: nat)
    requires WorldOk(w) && Matches(w, f) && Enabled(w, Fail(i))
    ensures F.Enabled(f, F.Fail(i)) && WorldOk(Next(w, Fail(i))) && Matches(Next(w, Fail(i)), F.Next(f, F.Fail(i)))
  {
    assert LineMatches(w, w.lines[i], f.links[i]);
    var l, k := w.lines[i], f.links[i];
    var v, g := Next(w, Fail(i)), F.Next(f, F.Fail(i));
    StrayAdded(w, v, f, g, Stray(l.src, l.dst, l.wire.num, l.wire.article), F.Loose(k.src, k.dst, k.phase.num, k.phase.copy));
    MovedMatches(w, v, f, g, i, F.Advance(k, k.phase.num, F.Failed), k.phase.num);
  }

  /** Only line i changed, and not its ends. */
  lemma LineReplaced(w: World, v: World, f: F.Net, g: F.Net, i: nat, l: Line, k: F.Link)
    requires WorldOk(w) && SitesMatch(w, f) && LinesMatch(w, f) && i < |w.lines|
    requires v.sites == w.sites && v.lines == w.lines[i := l] && g.nodes == f.nodes && g.links == f.links[i := k]
    requires l.src == w.lines[i].src && l.dst == w.lines[i].dst && LineMatches(w, l, k)
    ensures WorldOk(v) && SitesMatch(v, g) && LinesMatch(v, g)
  {
    ReplacedEnds(w.lines, i, l);
    EndsKeepWorld(w, v);
    SameSitesMatch(w, v, f, g);
    ReplacedLinesMatch(w, v, f, g, i, l, k);
  }

  lemma SameSitesMatch(w: World, v: World, f: F.Net, g: F.Net)
    requires SitesMatch(w, f) && v.sites == w.sites && g.nodes == f.nodes
    ensures SitesMatch(v, g)
  {
  }

  lemma ReplacedLinesMatch(w: World, v: World, f: F.Net, g: F.Net, i: nat, l: Line, k: F.Link)
    requires LinesMatch(w, f) && i < |w.lines| && v.sites == w.sites && v.lines == w.lines[i := l]
    requires g.links == f.links[i := k] && LineMatches(w, l, k)
    ensures LinesMatch(v, g)
  {
    forall j | 0 <= j < |v.lines| ensures LineMatches(v, v.lines[j], g.links[j]) {
      assert j != i ==> LineMatches(w, w.lines[j], f.links[j]);
    }
  }

  lemma InterruptMatches(w: World, f: F.Net, i: nat)
    requires WorldOk(w) && Matches(w, f) && Enabled(w, Interrupt(i))
    ensures F.Enabled(f, F.Interrupt(i))
    ensures WorldOk(Next(w, Interrupt(i))) && Matches(Next(w, Interrupt(i)), F.Next(f, F.Interrupt(i)))
  {
    assert LineMatches(w, w.lines[i], f.links[i]);
    var l, k := w.lines[i], f.links[i];
    var v, g := Next(w, Interrupt(i)), F.Next(f, F.Interrupt(i));
    LineReplaced(w, v, f, g, i, v.lines[i], F.Cut(k));
    if l.wire.Sent? {
      StrayAdded(w, v, f, g, Stray(l.src, l.dst, l.wire.num, l.wire.article), F.Loose(k.src, k.dst, k.phase.num, k.phase.copy));
    }
  }

  lemma ConnectMatches(w: World, f: F.Net, i: nat)
    requires WorldOk(w) && Matches(w, f) && Enabled(w, Connect(i))
    ensures F.Enabled(f, F.Connect(i))
    ensures WorldOk(Next(w, Connect(i))) && Matches(Next(w, Connect(i)), F.Next(f, F.Connect(i)))
  {
    assert LineMatches(w, w.lines[i], f.links[i]);
    LineReplaced(w, Next(w, Connect(i)), f, F.Next(f, F.Connect(i)), i, w.lines[i].(up := true), f.links[i].(up := true));
  }

  /** The flood with its permissions set for the step to come. */
  function Set(f: F.Net, r: set<(Id, Id, D.MsgId)>, p: set<(Id, Id, D.MsgId)>): F.Net {
    f.(mayRead := r, mayPost := p)
  }

  // ---- a turn ---------------------------------------------------------------

  lemma TurnOffers(w: World, f: F.Net, i: nat)
    requires WorldOk(w) && SitesMatch(w, f) && LinesMatch(w, f) && Enabled(w, Turn(i))
    ensures i < |f.links|
    ensures var turn, k, num := TurnOf(w, w.lines[i]), f.links[i], TurnNumber(TurnOf(w, w.lines[i]));
            && k.up && k.phase.Idle? && k.src in f.nodes && F.IsNext(f.nodes[k.src].arts, k.cursor, num) && num > 0
            && match turn
               case Idle => false
               case SkippedPath(x) => x == num && forall r :: F.Offer(k, num, f.nodes[k.src].arts[num], r) == F.Advance(k, num, F.PathSkipped)
               case SkippedPerms(x) => x == num && F.Offer(k, num, f.nodes[k.src].arts[num], false) == F.Advance(k, num, F.PermSkipped)
               case Attempted(x, a) =>
                 && x == num && a.path != "" && f.nodes[k.src].arts[num] == CopyOf(a)
                 && F.Offer(k, num, CopyOf(a), true) == k.(phase := F.Sent(num, CopyOf(a)), attempts := F.Bump(k.attempts, num))
  {
    var l, k := w.lines[i], f.links[i];
    assert LineMatches(w, l, k);
    assert SiteOk(l.src, w.sites[l.src]);
    TurnRefinesOffer(w.sites[l.src].db, f.nodes[l.src], D.PeerGroup(l.src, l.dst), k);
  }

  lemma TurnMatches(w: World, f: F.Net, i: nat)
    requires WorldOk(w) && Matches(w, f) && Enabled(w, Turn(i))
    ensures var num := TurnNumber(TurnOf(w, w.lines[i]));
            var f1 := Set(f, MayPass(w, f, i), f.mayPost);
            && F.Enabled(f1, F.Send(i, num))
            && WorldOk(Next(w, Turn(i))) && Matches(Next(w, Turn(i)), F.Next(f1, F.Send(i, num)))
  {
    TurnOffers(w, f, i);
    if TurnOf(w, w.lines[i]).Attempted? {
      TurnAttempted(w, f, i);
    } else {
      TurnSkipped(w, f, i);
    }
  }

  lemma TurnAttempted(w: World, f: F.Net, i: nat)
    requires WorldOk(w) && Matches(w, f) && Enabled(w, Turn(i)) && TurnOf(w, w.lines[i]).Attempted?
    ensures var num := TurnNumber(TurnOf(w, w.lines[i]));
            var f1 := Set(f, MayPass(w, f, i), f.mayPost);
            && F.Enabled(f1, F.Send(i, num))
            && WorldOk(Next(w, Turn(i))) && Matches(Next(w, Turn(i)), F.Next(f1, F.Send(i, num)))
  {
    var l, k, turn := w.lines[i], f.links[i], TurnOf(w, w.lines[i]);
    var num, f1 := TurnNumber(turn), Set(f, MayPass(w, f, i), f.mayPost);
    TurnOffers(w, f, i);
    var v, g := Next(w, Turn(i)), F.Next(f1, F.Send(i, num));
    assert g.nodes == f.nodes && g.loose == f.loose;
    assert LineMatches(w, l, k);
    LineReplaced(w, v, f, g, i, v.lines[i], k.(phase := F.Sent(num, CopyOf(turn.article)), attempts := F.Bump(k.attempts, num)));
  }

  lemma TurnSkipped(w: World, f: F.Net, i: nat)
    requires WorldOk(w) && Matches(w, f) && Enabled(w, Turn(i)) && !TurnOf(w, w.lines[i]).Attempted?
    ensures var num := TurnNumber(TurnOf(w, w.lines[i]));
            var f1 := Set(f, MayPass(w, f, i), f.mayPost);
            && F.Enabled(f1, F.Send(i, num))
            && WorldOk(Next(w, Turn(i))) && Matches(Next(w, Turn(i)), F.Next(f1, F.Send(i, num)))
  {
    var k, turn := f.links[i], TurnOf(w, w.lines[i]);
    var num, f1 := TurnNumber(turn), Set(f, MayPass(w, f, i), f.mayPost);
    TurnOffers(w, f, i);
    var v, g := Next(w, Turn(i)), F.Next(f1, F.Send(i, num));
    MovedMatches(w, v, f, g, i, F.Advance(k, num, if turn.SkippedPath? then F.PathSkipped else F.PermSkipped), num);
  }

  // ---- an article dealt with ------------------------------------------------

  /** Node n's store changed and represents node. */
  lemma NodeReplaced(w: World, v: World, f: F.Net, g: F.Net, n: Id, t: R.Hub, node: F.Node)
    requires SitesMatch(w, f) && n in w.sites && v.sites == w.sites[n := t] && g.nodes == f.nodes[n := node]
    requires Represents(t.db, node)
    ensures SitesMatch(v, g)
  {
  }

  lemma DeliverMatches(w: World, f: F.Net, src: Id, dst: Id, a: D.Article, verified: bool, after: R.Hub, out: B.Outcome)
    requires SitesMatch(w, f) && SitesOk(w) && a.path != ""
    requires Takes(w, dst, B.Session(src, B.Tor), a, verified, after, out)
    ensures SiteOk(dst, after) && CursorsKept(w.sites[dst].db, after.db)
    ensures var f1 := Set(f, f.mayRead, MayFile(w, src, dst, a, out));
            && dst in f1.nodes && (F.Judge(f1, src, dst, CopyOf(a)).Stored? <==> out.Posted?)
            && dst in F.Deliver(f1, src, dst, CopyOf(a)).nodes
            && F.Deliver(f1, src, dst, CopyOf(a)).nodes == f.nodes[dst := F.Deliver(f1, src, dst, CopyOf(a)).nodes[dst]]
            && Represents(after.db, F.Deliver(f1, src, dst, CopyOf(a)).nodes[dst])
  {
    DeliveredSite(w, f, src, dst, a, verified, after, out);
    assert CopyOf(a).path != [];
    JudgedAs(Set(f, f.mayRead, MayFile(w, src, dst, a, out)), src, dst, CopyOf(a), out.Posted?);
  }

  /** What the flood makes of a delivery whose outcome is known. */
  lemma JudgedAs(f: F.Net, src: Id, dst: Id, c: F.Copy, posted: bool)
    requires dst in f.nodes && c.path != []
    requires (dst, src, c.mid) in f.mayPost <==> posted || F.HoldsIn(f.nodes[dst].arts, c.mid)
    requires posted ==> !F.HoldsIn(f.nodes[dst].arts, c.mid)
    ensures F.Judge(f, src, dst, c).Stored? <==> posted
    ensures var nodes := F.Deliver(f, src, dst, c).nodes;
            && dst in nodes && nodes == f.nodes[dst := nodes[dst]]
            && nodes[dst] == if posted then F.File(f.nodes[dst], F.Copy(c.mid, [dst] + c.path)) else f.nodes[dst]
  {
  }

  lemma DeliveredSite(w: World, f: F.Net, src: Id, dst: Id, a: D.Article, verified: bool, after: R.Hub, out: B.Outcome)
    requires SitesMatch(w, f) && SitesOk(w) && a.path != ""
    requires Takes(w, dst, B.Session(src, B.Tor), a, verified, after, out)
    ensures SiteOk(dst, after) && CursorsKept(w.sites[dst].db, after.db)
    ensures out.Posted? ==> !F.HoldsIn(f.nodes[dst].arts, a.messageId)
    ensures out.Posted? ==> Represents(after.db, F.File(f.nodes[dst], F.Copy(a.messageId, [dst] + PathOf(a.path))))
    ensures !out.Posted? ==> Represents(after.db, f.nodes[dst])
    ensures F.HoldsIn(f.nodes[dst].arts, a.messageId) <==> a.messageId in w.sites[dst].db.rows
  {
    assert SiteOk(dst, w.sites[dst]);
    PostSite(dst, w.sites[dst], after, B.Session(src, B.Tor), a, verified, out, f.nodes[dst]);
    RepresentsHolds(w.sites[dst].db, f.nodes[dst], a.messageId);
    NewPathIs(dst, B.Tor, a.path);
  }

  lemma DealtWith(w: World, v: World, f: F.Net, g: F.Net, n: Id, t: R.Hub, node: F.Node)
    requires WorldOk(w) && SitesMatch(w, f) && n in w.sites && SiteOk(n, t) && CursorsKept(w.sites[n].db, t.db)
    requires v.sites == w.sites[n := t] && SameEnds(w.lines, v.lines)
    requires g.nodes == f.nodes[n := node] && Represents(t.db, node)
    ensures WorldOk(v) && SitesMatch(v, g) && CursorsSame(w, v)
  {
    SiteReplaced(w, v, n, t);
    NodeReplaced(w, v, f, g, n, t, node);
  }

  lemma ReceivedLines(w: World, v: World, f: F.Net, g: F.Net, i: nat, l: Line, k: F.Link)
    requires LinesMatch(w, f) && CursorsSame(w, v) && i < |w.lines| && v.lines == w.lines[i := l]
    requires g.links == f.links[i := k] && l.src == w.lines[i].src && l.dst == w.lines[i].dst && l.up == w.lines[i].up
    requires k.src == f.links[i].src && k.dst == f.links[i].dst && k.up == f.links[i].up
    requires k.cursor == f.links[i].cursor && WireMatches(l.wire, k.phase)
    ensures LinesMatch(v, g)
  {
    forall j | 0 <= j < |v.lines| ensures LineMatches(v, v.lines[j], g.links[j]) {
      assert LineMatches(w, w.lines[j], f.links[j]);
    }
  }

  /** Node n dealt with an article, and line i, if there is one, was answered. */
  lemma DealtMatches(w: World, v: World, f: F.Net, g: F.Net, n: Id, t: R.Hub, node: F.Node, i: nat, l: Line, k: F.Link)
    requires WorldOk(w) && SitesMatch(w, f) && LinesMatch(w, f) && n in w.sites && i < |w.lines|
    requires SiteOk(n, t) && CursorsKept(w.sites[n].db, t.db) && Represents(t.db, node)
    requires v.sites == w.sites[n := t] && v.lines == w.lines[i := l]
    requires g.nodes == f.nodes[n := node] && g.links == f.links[i := k]
    requires l.src == w.lines[i].src && l.dst == w.lines[i].dst && l.up == w.lines[i].up
    requires k.src == f.links[i].src && k.dst == f.links[i].dst && k.up == f.links[i].up
    requires k.cursor == f.links[i].cursor && WireMatches(l.wire, k.phase)
    ensures WorldOk(v) && SitesMatch(v, g) && LinesMatch(v, g)
  {
    ReplacedEnds(w.lines, i, l);
    DealtWith(w, v, f, g, n, t, node);
    ReceivedLines(w, v, f, g, i, l, k);
  }

  /** The article on line i is dealt with. */
  lemma Received(w: World, f: F.Net, i: nat, verified: bool, after: R.Hub, out: B.Outcome)
    requires SitesMatch(w, f) && SitesOk(w) && LinesMatch(w, f) && Enabled(w, Receive(i, verified, after, out))
    ensures var l, k := w.lines[i], f.links[i];
            var f1 := Set(f, f.mayRead, MayFile(w, l.src, l.dst, l.wire.article, out));
            && k.phase == F.Sent(l.wire.num, CopyOf(l.wire.article)) && l.wire.num > 0 && l.wire.article.path != ""
            && k.src == l.src && k.dst == l.dst && l.dst in f.nodes
            && SiteOk(l.dst, after) && CursorsKept(w.sites[l.dst].db, after.db)
            && (F.Judge(f1, l.src, l.dst, CopyOf(l.wire.article)).Stored? <==> out.Posted?)
            && l.dst in F.Deliver(f1, l.src, l.dst, CopyOf(l.wire.article)).nodes
            && F.Deliver(f1, l.src, l.dst, CopyOf(l.wire.article)).nodes
               == f.nodes[l.dst := F.Deliver(f1, l.src, l.dst, CopyOf(l.wire.article)).nodes[l.dst]]
            && Represents(after.db, F.Deliver(f1, l.src, l.dst, CopyOf(l.wire.article)).nodes[l.dst])
  {
    var l := w.lines[i];
    assert LineMatches(w, l, f.links[i]);
    DeliverMatches(w, f, l.src, l.dst, l.wire.article, verified, after, out);
  }

  lemma ReceiveMatches(w: World, f: F.Net, i: nat, verified: bool, after: R.Hub, out: B.Outcome)
    requires WorldOk(w) && Matches(w, f) && Enabled(w, Receive(i, verified, after, out))
    ensures var l := w.lines[i];
            var f1 := Set(f, f.mayRead, MayFile(w, l.src, l.dst, l.wire.article, out));
            && F.Enabled(f1, F.Receive(i))
            && WorldOk(Next(w, Receive(i, verified, after, out)))
            && Matches(Next(w, Receive(i, verified, after, out)), F.Next(f1, F.Receive(i)))
  {
    Received(w, f, i, verified, after, out);
    var l, k := w.lines[i], f.links[i];
    var a := l.wire.article;
    var f1 := Set(f, f.mayRead, MayFile(w, l.src, l.dst, a, out));
    var v := Next(w, Receive(i, verified, after, out));
    AnsweredMatches(w, v, f, f1, i, after, out);
  }

  lemma AnsweredMatches(w: World, v: World, f: F.Net, f1: F.Net, i: nat, after: R.Hub, out: B.Outcome)
    requires WorldOk(w) && Matches(w, f) && i < |w.lines| && w.lines[i].wire.Sent? && w.lines[i].dst in w.sites
    requires f1 == Set(f, f1.mayRead, f1.mayPost) && F.Enabled(f1, F.Receive(i))
    requires var l, k := w.lines[i], f.links[i];
             var c := CopyOf(l.wire.article);
             && k.phase == F.Sent(l.wire.num, c) && l.wire.num > 0 && l.wire.article.path != "" && k.src == l.src && k.dst == l.dst
             && SiteOk(l.dst, after) && CursorsKept(w.sites[l.dst].db, after.db)
             && (F.Judge(f1, l.src, l.dst, c).Stored? <==> out.Posted?)
             && l.dst in F.Deliver(f1, l.src, l.dst, c).nodes
             && F.Deliver(f1, l.src, l.dst, c).nodes == f.nodes[l.dst := F.Deliver(f1, l.src, l.dst, c).nodes[l.dst]]
             && Represents(after.db, F.Deliver(f1, l.src, l.dst, c).nodes[l.dst])
             && v == w.(sites := w.sites[l.dst := after],
                        lines := w.lines[i := l.(wire := Answered(l.wire.num, l.wire.article, out))])
    ensures WorldOk(v) && Matches(v, F.Next(f1, F.Receive(i)))
  {
    var l, k := w.lines[i], f.links[i];
    var c, g := CopyOf(l.wire.article), F.Next(f1, F.Receive(i));
    var k' := k.(phase := F.Answered(l.wire.num, c, F.Judge(f1, l.src, l.dst, c)));
    assert g.links == f.links[i := k'] && g.loose == f.loose && g.nodes == F.Deliver(f1, l.src, l.dst, c).nodes;
    DealtMatches(w, v, f, g, l.dst, after, g.nodes[l.dst], i, v.lines[i], k');
  }

  lemma DroppedStray(w: World, v: World, f: F.Net, g: F.Net, j: nat)
    requires StraysMatch(w, f) && j < |w.strays|
    requires v.strays == w.strays[..j] + w.strays[j + 1..] && g.loose == f.loose[..j] + f.loose[j + 1..]
    ensures StraysMatch(v, g)
  {
    forall x | 0 <= x < |v.strays| ensures StrayMatches(v.strays[x], g.loose[x]) {
      var y := if x < j then x else x + 1;
      assert v.strays[x] == w.strays[y] && g.loose[x] == f.loose[y];
    }
  }

  lemma SameLinesMatch(w: World, v: World, f: F.Net, g: F.Net)
    requires LinesMatch(w, f) && CursorsSame(w, v) && v.lines == w.lines && g.links == f.links
    ensures LinesMatch(v, g)
  {
    forall j | 0 <= j < |v.lines| ensures LineMatches(v, v.lines[j], g.links[j]) {
      assert LineMatches(w, w.lines[j], f.links[j]);
    }
  }

  lemma SettledStray(w: World, v: World, f: F.Net, g: F.Net, j: nat, n: Id, t: R.Hub, node: F.Node)
    requires WorldOk(w) && Matches(w, f) && j < |w.strays| && n in w.sites
    requires SiteOk(n, t) && CursorsKept(w.sites[n].db, t.db) && Represents(t.db, node)
    requires v == w.(sites := w.sites[n := t], strays := w.strays[..j] + w.strays[j + 1..])
    requires g.nodes == f.nodes[n := node] && g.links == f.links && g.loose == f.loose[..j] + f.loose[j + 1..]
    ensures WorldOk(v) && Matches(v, g)
  {
    DealtWith(w, v, f, g, n, t, node);
    SameLinesMatch(w, v, f, g);
    DroppedStray(w, v, f, g, j);
  }

  lemma LooseDelivered(f: F.Net, f1: F.Net, j: nat)
    requires f1 == Set(f, f1.mayRead, f1.mayPost) && F.Enabled(f1, F.ReceiveLoose(j))
    ensures var c, g := f.loose[j], F.Next(f1, F.ReceiveLoose(j));
            && g.nodes == F.Deliver(f1, c.src, c.dst, c.copy).nodes && g.links == f.links
            && g.loose == f.loose[..j] + f.loose[j + 1..]
  {
  }

  lemma StrayTaken(w: World, f: F.Net, j: nat, verified: bool, after: R.Hub, out: B.Outcome)
    requires SitesMatch(w, f) && SitesOk(w) && StraysMatch(w, f) && Enabled(w, ReceiveStray(j, verified, after, out))
    ensures var c := w.strays[j];
            var f1 := Set(f, f.mayRead, MayFile(w, c.src, c.dst, c.article, out));
            && F.Enabled(f1, F.ReceiveLoose(j)) && SiteOk(c.dst, after) && CursorsKept(w.sites[c.dst].db, after.db)
            && var g := F.Next(f1, F.ReceiveLoose(j));
               && c.dst in g.nodes && g.nodes == f.nodes[c.dst := g.nodes[c.dst]] && g.links == f.links
               && g.loose == f.loose[..j] + f.loose[j + 1..] && Represents(after.db, g.nodes[c.dst])
  {
    var c := w.strays[j];
    assert StrayMatches(c, f.loose[j]);
    DeliverMatches(w, f, c.src, c.dst, c.article, verified, after, out);
    LooseDelivered(f, Set(f, f.mayRead, MayFile(w, c.src, c.dst, c.article, out)), j);
  }

  lemma ReceiveStrayMatches(w: World, f: F.Net, j: nat, verified: bool, after: R.Hub, out: B.Outcome)
    requires WorldOk(w) && Matches(w, f) && Enabled(w, ReceiveStray(j, verified, after, out))
    ensures var c := w.strays[j];
            c.dst in w.sites && var f1 := Set(f, f.mayRead, MayFile(w, c.src, c.dst, c.article, out));
            && F.Enabled(f1, F.ReceiveLoose(j))
            && WorldOk(Next(w, ReceiveStray(j, verified, after, out)))
            && Matches(Next(w, ReceiveStray(j, verified, after, out)), F.Next(f1, F.ReceiveLoose(j)))
  {
    var c := w.strays[j];
    StrayTaken(w, f, j, verified, after, out);
    var g := F.Next(Set(f, f.mayRead, MayFile(w, c.src, c.dst, c.article, out)), F.ReceiveLoose(j));
    SettledStray(w, Next(w, ReceiveStray(j, verified, after, out)), f, g, j, c.dst, after, g.nodes[c.dst]);
  }

  lemma DropStrayMatches(w: World, f: F.Net, j: nat)
    requires WorldOk(w) && Matches(w, f) && Enabled(w, DropStray(j))
    ensures F.Enabled(f, F.DropLoose(j)) && WorldOk(Next(w, DropStray(j))) && Matches(Next(w, DropStray(j)), F.Next(f, F.DropLoose(j)))
  {
    var v, g := Next(w, DropStray(j)), F.Next(f, F.DropLoose(j));
    DroppedStray(w, v, f, g, j);
    EndsKeepWorld(w, v);
    SameLinesMatch(w, v, f, g);
  }

  // ---- posts, new links and restarts ----------------------------------------

  /** What a local post does to its node. */
  lemma PostReady(w: World, f: F.Net, n: Id, a: D.Article, verified: bool, after: R.Hub, out: B.Outcome)
    requires SitesOk(w) && SitesMatch(w, f) && Takes(w, n, B.Session(n, B.Local), a, verified, after, out)
    ensures SiteOk(n, after) && CursorsKept(w.sites[n].db, after.db)
    ensures out.Posted? ==> !F.HoldsIn(f.nodes[n].arts, a.messageId)
    ensures out.Posted? ==> Represents(after.db, F.File(f.nodes[n], F.Copy(a.messageId, [n, F.POSTED] + PathOf(a.path))))
    ensures !out.Posted? ==> Represents(after.db, f.nodes[n])
  {
    assert SiteOk(n, w.sites[n]);
    PostSite(n, w.sites[n], after, B.Session(n, B.Local), a, verified, out, f.nodes[n]);
    NewPathIs(n, B.Local, a.path);
    RepresentsHolds(w.sites[n].db, f.nodes[n], a.messageId);
  }

  lemma PostMatches(w: World, f: F.Net, n: Id, a: D.Article, verified: bool, after: R.Hub, out: B.Outcome)
    requires WorldOk(w) && Matches(w, f) && Enabled(w, Post(n, a, verified, after, out))
    ensures var s, x := Post(n, a, verified, after, out), F.LocalPost(n, a.messageId, PathOf(a.path));
            && WorldOk(Next(w, s))
            && if out.Posted? then F.Enabled(f, x) && Matches(Next(w, s), F.Next(f, x)) else Matches(Next(w, s), f)
  {
    PostReady(w, f, n, a, verified, after, out);
    var v := w.(sites := w.sites[n := after]);
    if out.Posted? {
      LocalPosted(f, n, a.messageId, PathOf(a.path));
      var node := F.File(f.nodes[n], F.Copy(a.messageId, [n, F.POSTED] + PathOf(a.path)));
      NodeChanged(w, v, f, F.Next(f, F.LocalPost(n, a.messageId, PathOf(a.path))), n, after, node);
    } else {
      NodeKept(f, n);
      NodeChanged(w, v, f, f, n, after, f.nodes[n]);
    }
  }

  lemma LocalPosted(f: F.Net, n: Id, m: D.MsgId, path: seq<Id>)
    requires n in f.nodes && !F.HoldsIn(f.nodes[n].arts, m)
    ensures F.Enabled(f, F.LocalPost(n, m, path))
    ensures var g := F.Next(f, F.LocalPost(n, m, path));
            && g.nodes == f.nodes[n := F.File(f.nodes[n], F.Copy(m, [n, F.POSTED] + path))]
            && g.links == f.links && g.loose == f.loose
  {
  }

  lemma NodeKept(f: F.Net, n: Id)
    requires n in f.nodes
    ensures f.nodes[n := f.nodes[n]] == f.nodes
  {
  }

  lemma ReopenKeepsCursors(db: D.Db, now: nat)
    requires D.Reopen(db, now).Some?
    ensures CursorsKept(db, D.Reopen(db, now).value)
    ensures RowsOk(db) ==> RowsOk(D.Reopen(db, now).value)
  {
  }

  /** Node n's store changed; lines and strays stayed. */
  lemma NodeChanged(w: World, v: World, f: F.Net, g: F.Net, n: Id, t: R.Hub, node: F.Node)
    requires WorldOk(w) && Matches(w, f) && n in w.sites
    requires SiteOk(n, t) && CursorsKept(w.sites[n].db, t.db) && Represents(t.db, node)
    requires v == w.(sites := w.sites[n := t])
    requires g.nodes == f.nodes[n := node] && g.links == f.links && g.loose == f.loose
    ensures WorldOk(v) && Matches(v, g)
  {
    DealtWith(w, v, f, g, n, t, node);
    SameLinesMatch(w, v, f, g);
  }

  lemma LinesDown(w: World, f: F.Net, n: Id)
    requires LinesMatch(w, f) && forall l | l in w.lines && l.src == n :: !l.up
    ensures forall k | k in f.links && k.src == n :: !k.up
  {
    forall k | k in f.links && k.src == n ensures !k.up {
      var i :| 0 <= i < |f.links| && f.links[i] == k;
      assert LineMatches(w, w.lines[i], k) && w.lines[i] in w.lines;
    }
  }

  lemma ReopenedSite(n: Id, h: R.Hub, node: F.Node, now: nat)
    requires SiteOk(n, h) && Represents(h.db, node) && D.Reopen(h.db, now).Some?
    ensures now !in node.arts
    ensures var d := D.Reopen(h.db, now).value;
            && d.me == n && RowsOk(d) && CursorsKept(h.db, d)
            && Represents(d, node.(last := if now > node.last then now else node.last))
  {
    ReopenRefinesRestart(h.db, node, now);
    ReopenKeepsCursors(h.db, now);
  }

  lemma RestartReady(w: World, f: F.Net, n: Id, now: nat)
    requires SitesMatch(w, f) && SitesOk(w) && LinesMatch(w, f) && Enabled(w, Restart(n, now))
    ensures F.Enabled(f, F.Restart(n, now))
    ensures var t, g := Next(w, Restart(n, now)).sites[n], F.Next(f, F.Restart(n, now));
            && SiteOk(n, t) && CursorsKept(w.sites[n].db, t.db) && n in g.nodes && Represents(t.db, g.nodes[n])
            && g.nodes == f.nodes[n := g.nodes[n]]
  {
    assert SiteOk(n, w.sites[n]);
    ReopenedSite(n, w.sites[n], f.nodes[n], now);
    LinesDown(w, f, n);
  }

  lemma RestartMatches(w: World, f: F.Net, n: Id, now: nat)
    requires WorldOk(w) && Matches(w, f) && Enabled(w, Restart(n, now))
    ensures F.Enabled(f, F.Restart(n, now))
    ensures WorldOk(Next(w, Restart(n, now))) && Matches(Next(w, Restart(n, now)), F.Next(f, F.Restart(n, now)))
  {
    RestartReady(w, f, n, now);
    var v, g := Next(w, Restart(n, now)), F.Next(f, F.Restart(n, now));
    NodeChanged(w, v, f, g, n, v.sites[n], g.nodes[n]);
  }

  lemma ServeEnabled(w: World, f: F.Net, n: Id, peer: Id)
    requires LinesMatch(w, f) && SitesMatch(w, f) && Enabled(w, Serve(n, peer))
    ensures F.Enabled(f, F.AddLink(n, peer))
  {
    forall k | k in f.links ensures k.src != n || k.dst != peer {
      var i :| 0 <= i < |f.links| && f.links[i] == k;
      assert LineMatches(w, w.lines[i], k);
    }
  }

  lemma OneMoreLine(w: World, v: World, l: Line)
    requires v.lines == w.lines + [l]
    ensures forall a, b {:trigger HasLine(v, a, b)} :: HasLine(v, a, b) <==> HasLine(w, a, b) || (a == l.src && b == l.dst)
  {
    forall a, b ensures HasLine(v, a, b) <==> HasLine(w, a, b) || (a == l.src && b == l.dst) {
      if i :| 0 <= i < |w.lines| && w.lines[i].src == a && w.lines[i].dst == b {
        assert v.lines[i] == w.lines[i];
      }
      assert v.lines[|w.lines|] == l;
    }
  }

  lemma ServedNewPeers(w: World, v: World, l: Line)
    requires NewPeersAtZero(w) && v.sites == w.sites && v.lines == w.lines + [l]
    ensures NewPeersAtZero(v)
  {
    OneMoreLine(w, v, l);
    forall o, p | o in v.sites && p in v.sites[o].db.peers && !HasLine(v, o, p)
      ensures CursorOf(v.sites[o].db, p) == D.Number(0)
    {
      assert !HasLine(w, o, p);
    }
  }

  lemma ServedRegistered(w: World, v: World, l: Line)
    requires LinesRegistered(w) && v.sites == w.sites && v.lines == w.lines + [l] && !HasLine(w, l.src, l.dst)
    requires l.src in w.sites && l.dst in w.sites && l.dst in w.sites[l.src].db.peers
    ensures LinesRegistered(v)
  {
  }

  lemma ServedLines(w: World, v: World, f: F.Net, g: F.Net, l: Line, k: F.Link)
    requires LinesMatch(w, f) && v.sites == w.sites && v.lines == w.lines + [l] && g.links == f.links + [k]
    requires LineMatches(w, l, k)
    ensures LinesMatch(v, g)
  {
    forall j | 0 <= j < |v.lines| ensures LineMatches(v, v.lines[j], g.links[j]) {
      assert j < |w.lines| ==> LineMatches(w, w.lines[j], f.links[j]);
    }
  }

  lemma ServeMatches(w: World, f: F.Net, n: Id, peer: Id)
    requires WorldOk(w) && Matches(w, f) && Enabled(w, Serve(n, peer))
    ensures F.Enabled(f, F.AddLink(n, peer))
    ensures WorldOk(Next(w, Serve(n, peer))) && Matches(Next(w, Serve(n, peer)), F.Next(f, F.AddLink(n, peer)))
  {
    var l := Line(n, peer, false, Quiet);
    var v, k := w.(lines := w.lines + [l]), F.Link(n, peer, false, 0, F.Idle, map[], map[], map[]);
    ServeEnabled(w, f, n, peer);
    assert CursorOf(w.sites[n].db, peer) == D.Number(0);
    ServedNewPeers(w, v, l);
    ServedRegistered(w, v, l);
    ServedLines(w, v, f, F.Next(f, F.AddLink(n, peer)), l, k);
  }
}
