/** A network of article stores: nodes that post, receive and send with the very
    operations of the relay, over links that fail, break and come back. */
module Relays {
  import opened Options
  import opened Text
  import D = ArticleDb
  import opened ArticleRefs
  import P = Peering
  import R = Registry
  import B = Backend

  type Id = D.TorId

  /** What is under way on a link: a post on the wire, or one the peer has dealt
      with while the sender's cursor has not been written yet. */
  datatype Wire =
    | Quiet
    | Sent(num: int, article: D.Article)
    | Answered(num: int, article: D.Article, out: B.Outcome)

  /** The link over which src serves its registered peer dst, where dst is the node at
      the far end: Peering.ConnectionIsPeers says when that is so. */
  datatype Line = Line(src: Id, dst: Id, up: bool, wire: Wire)

  /** A post whose sender no longer waits. */
  datatype Stray = Stray(src: Id, dst: Id, num: int, article: D.Article)

  datatype World = World(sites: map<Id, R.Hub>, lines: seq<Line>, strays: seq<Stray>)

  /** after and out are what a Post left and answered; verified is the verdict on
      the article's signature. */
  datatype Step =
    | Post(n: Id, a: D.Article, verified: bool, after: R.Hub, out: B.Outcome)
    | Serve(n: Id, peer: Id)
    | Turn(i: nat)
    | Receive(i: nat, verified: bool, after: R.Hub, out: B.Outcome)
    | Finish(i: nat)
    | Fail(i: nat)
    | Interrupt(i: nat)
    | Connect(i: nat)
    | Restart(n: Id, now: nat)
    | ReceiveStray(j: nat, verified: bool, after: R.Hub, out: B.Outcome)
    | DropStray(j: nat)

  predicate HasLine(w: World, a: Id, b: Id) {
    exists i :: 0 <= i < |w.lines| && w.lines[i].src == a && w.lines[i].dst == b
  }

  predicate IsCancel(a: D.Article) {
    Split(a.control, ' ')[0] == "cancel"
  }

  /** Node n deals with an article from a session: not a cancel, no panic, and with a
      signature no other article has. */
  ghost predicate Takes(w: World, n: Id, session: B.Session, a: D.Article, verified: bool, after: R.Hub, out: B.Outcome) {
    && n in w.sites && !IsCancel(a) && FreshSignature(w.sites[n].db, a)
    && R.ControlRuns(w.sites[n], a, session.id)
    && B.PostDone(w.sites[n], after, session, a, verified, out)
  }

  /** The turn of the link from src to dst. */
  ghost function TurnOf(w: World, l: Line): P.Turn
    requires l.src in w.sites && D.PeerGroup(l.src, l.dst) in w.sites[l.src].db.groups
  {
    P.NextTurn(w.sites[l.src].db, l.up, D.PeerGroup(l.src, l.dst), l.dst)
  }

  predicate OnLine(w: World, i: nat) {
    && i < |w.lines| && w.lines[i].src in w.sites
    && D.PeerGroup(w.lines[i].src, w.lines[i].dst) in w.sites[w.lines[i].src].db.groups
  }

  ghost predicate Enabled(w: World, s: Step) {
    match s
    case Post(n, a, verified, after, out) => Takes(w, n, B.Session(n, B.Local), a, verified, after, out)
    case Serve(n, peer) => n in w.sites && peer in w.sites && peer in w.sites[n].db.peers && n != peer && !HasLine(w, n, peer)
    case Turn(i) =>
      && OnLine(w, i) && w.lines[i].up && w.lines[i].wire.Quiet?
      && P.PermsKnown(w.sites[w.lines[i].src].db, D.PeerGroup(w.lines[i].src, w.lines[i].dst), w.lines[i].dst)
      && !TurnOf(w, w.lines[i]).Idle?
    case Receive(i, verified, after, out) =>
      && i < |w.lines| && w.lines[i].wire.Sent?
      && Takes(w, w.lines[i].dst, B.Session(w.lines[i].src, B.Tor), w.lines[i].wire.article, verified, after, out)
    case Finish(i) => OnLine(w, i) && w.lines[i].wire.Answered?
    case Fail(i) => OnLine(w, i) && w.lines[i].wire.Sent?
    case Interrupt(i) => i < |w.lines| && w.lines[i].up
    case Connect(i) => i < |w.lines| && !w.lines[i].up
    case Restart(n, now) =>
      n in w.sites && D.Reopen(w.sites[n].db, now).Some? && forall l | l in w.lines && l.src == n :: !l.up
    case ReceiveStray(j, verified, after, out) =>
      && j < |w.strays|
      && Takes(w, w.strays[j].dst, B.Session(w.strays[j].src, B.Tor), w.strays[j].article, verified, after, out)
    case DropStray(j) => j < |w.strays|
  }

  /** Node n writes num as its cursor for peer. */
  function Written(h: R.Hub, peer: Id, num: int): R.Hub
    requires D.PeerGroup(h.db.me, peer) in h.db.groups
  {
    h.(db := P.CursorAt(h.db, D.PeerGroup(h.db.me, peer), num))
  }

  /** Line i as it is after its cursor has moved to num. */
  function Moved(w: World, i: nat, num: int): World
    requires OnLine(w, i) && w.sites[w.lines[i].src].db.me == w.lines[i].src
  {
    var l := w.lines[i];
    w.(sites := w.sites[l.src := Written(w.sites[l.src], l.dst, num)], lines := w.lines[i := l.(wire := Quiet)])
  }

  ghost function Next(w: World, s: Step): World
    requires Enabled(w, s) && forall n | n in w.sites :: w.sites[n].db.me == n
  {
    match s
    case Post(n, _, _, after, _) => w.(sites := w.sites[n := after])
    case Serve(n, peer) => w.(lines := w.lines + [Line(n, peer, false, Quiet)])
    case Turn(i) =>
      (match TurnOf(w, w.lines[i])
       case SkippedPath(num) => Moved(w, i, num)
       case SkippedPerms(num) => Moved(w, i, num)
       case Attempted(num, a) => w.(lines := w.lines[i := w.lines[i].(wire := Sent(num, a))])
       case Idle => w)
    case Receive(i, _, after, out) =>
      var l := w.lines[i];
      w.(sites := w.sites[l.dst := after], lines := w.lines[i := l.(wire := Answered(l.wire.num, l.wire.article, out))])
    case Finish(i) => Moved(w, i, w.lines[i].wire.num)
    case Fail(i) =>
      var l := w.lines[i];
      Moved(w, i, l.wire.num).(strays := w.strays + [Stray(l.src, l.dst, l.wire.num, l.wire.article)])
    case Interrupt(i) =>
      var l := w.lines[i];
      w.(lines := w.lines[i := l.(up := false, wire := Quiet)],
         strays := if l.wire.Sent? then w.strays + [Stray(l.src, l.dst, l.wire.num, l.wire.article)] else w.strays)
    case Connect(i) => w.(lines := w.lines[i := w.lines[i].(up := true)])
    case Restart(n, now) =>
      w.(sites := w.sites[n := w.sites[n].(db := D.Reopen(w.sites[n].db, now).value, conns := {}, workers := multiset{})])
    case ReceiveStray(j, _, after, _) =>
      w.(sites := w.sites[w.strays[j].dst := after], strays := w.strays[..j] + w.strays[j + 1..])
    case DropStray(j) => w.(strays := w.strays[..j] + w.strays[j + 1..])
  }

  // ---- every node's store ---------------------------------------------------

  /** The cursor of db for its peer. */
  function CursorOf(db: D.Db, peer: Id): D.Reply {
    if D.PeerGroup(db.me, peer) in db.groups then D.GroupConfigGetInt64(db, D.PeerGroup(db.me, peer), "LastMessage")
    else D.Error
  }

  ghost predicate SiteOk(n: Id, h: R.Hub) {
    h.db.me == n && '!' !in n && n != ".POSTED" && RowsOk(h.db)
  }

  ghost predicate SitesOk(w: World) {
    forall n | n in w.sites :: SiteOk(n, w.sites[n])
  }

  /** A registered peer that is not served yet has its cursor at 0. */
  ghost predicate NewPeersAtZero(w: World) {
    forall n, p | n in w.sites && p in w.sites[n].db.peers && !HasLine(w, n, p) :: CursorOf(w.sites[n].db, p) == D.Number(0)
  }

  ghost predicate LinesRegistered(w: World) {
    && (forall i | 0 <= i < |w.lines| ::
          w.lines[i].src in w.sites && w.lines[i].dst in w.sites && w.lines[i].dst in w.sites[w.lines[i].src].db.peers)
    && (forall i, j | 0 <= i < j < |w.lines| :: w.lines[i].src != w.lines[j].src || w.lines[i].dst != w.lines[j].dst)
  }

  /** The peers db had keep their cursors, and new ones start at 0. */
  ghost predicate CursorsKept(db: D.Db, d: D.Db) {
    && d.me == db.me
    && (forall p | p in db.peers :: p in d.peers && CursorOf(d, p) == CursorOf(db, p))
    && (forall p | p in d.peers && p !in db.peers :: CursorOf(d, p) == D.Number(0))
  }

  lemma PeerGroupInjective(me: Id, a: Id, b: Id)
    requires D.PeerGroup(me, a) == D.PeerGroup(me, b)
    ensures a == b
  {
    var n := |me| + 7;
    assert D.PeerGroup(me, a)[n..] == a && D.PeerGroup(me, b)[n..] == b;
  }

  lemma AddPeerKeepsCursors(db: D.Db, peer: Id)
    requires peer in db.peers || D.PeerGroup(db.me, peer) in db.groups
    ensures CursorsKept(db, D.AddPeer(db, peer).0)
  {
    if peer !in db.peers {
      var d := D.AddPeer(db, peer).0;
      forall p | p in db.peers ensures CursorOf(d, p) == CursorOf(db, p) {
        if D.PeerGroup(db.me, p) == D.PeerGroup(db.me, peer) {
          PeerGroupInjective(db.me, p, peer);
        }
      }
    }
  }

  lemma NewGroupKeeps(db: D.Db, name: D.GroupName, description: string, card: seq<D.CardEntry>)
    ensures var d := D.NewGroup(db, name, description, card).0;
            d.rows == db.rows && d.files == db.files && d.lastId == db.lastId && CursorsKept(db, d)
  {
  }

  /** AddPeer of the peer set. */
  lemma PeersAddPeerKeeps(h: R.Hub, torid: Id)
    requires torid == h.db.me || D.Runs(h.db, D.CmdAddPeer(torid))
    ensures var d := R.PeersAddPeer(h, torid).0.db;
            d.rows == h.db.rows && d.files == h.db.files && d.lastId == h.db.lastId && CursorsKept(h.db, d)
  {
    if torid != h.db.me {
      AddPeerKeepsCursors(h.db, torid);
    }
  }

  /** A control message that is no cancel leaves the articles alone. */
  lemma ControlKeeps(h: R.Hub, a: D.Article, session: Id)
    requires R.ControlRuns(h, a, session) && !IsCancel(a)
    ensures var d := R.CheckControl(h, a, session).0.db;
            d.rows == h.db.rows && d.files == h.db.files && d.lastId == h.db.lastId && CursorsKept(h.db, d)
  {
    if R.OwnedNewgroup(a) {
      var words := Split(a.control, ' ');
      var description := R.NewgroupText.ReadInfos(a.control, a.infos).s;
      var (d, r) := D.NewGroup(h.db, words[1], description, a.card);
      NewGroupKeeps(h.db, words[1], description, a.card);
      if r != D.Error && R.PeeringName(words[1], session) {
        var peer := Split(words[1], '.')[2];
        PeersAddPeerKeeps(h.(db := d), peer);
        CursorsKeptTrans(h.db, d, R.PeersAddPeer(h.(db := d), peer).0.db);
      }
    }
  }

  lemma FiledKeepsCursors(db: D.Db, d: D.Db, a: D.Article, id: Id, out: B.Outcome)
    requires B.Filed(db, d, a, id, out)
    ensures CursorsKept(db, d)
  {
  }

  lemma CursorsKeptTrans(a: D.Db, b: D.Db, c: D.Db)
    requires CursorsKept(a, b) && CursorsKept(b, c)
    ensures CursorsKept(a, c)
  {
  }
}
