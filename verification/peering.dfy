/** The sending half of the relay (internal/peering/peering.go) as objects over
    the article store. */
module Peering {
  import opened Options
  import opened Text
  import D = ArticleDb
  import opened ArticleStores
  import opened ArticleRefs
  import R = Registry
  import H = Handshake
  import HandshakeIo

  // ---- one link's turn ------------------------------------------------------

  datatype Turn =
    | Idle
    | SkippedPath(num: int)
    | SkippedPerms(num: int)
    | Attempted(num: int, article: D.Article)

  predicate MayRead(db: D.Db, peer: TorId, g: GroupName) {
    var p := D.GetPerms(db, peer, g);
    p.Some? && p.value.read
  }

  /** Some group of the Newsgroups header, split as it stands, is readable. */
  ghost predicate Readable(db: D.Db, peer: TorId, newsgroups: string) {
    exists i :: 0 <= i < |Split(newsgroups, ',')| && MayRead(db, peer, Split(newsgroups, ',')[i])
  }

  /** What SendMessages does next for the peer whose cursor is in group g. */
  ghost function NextTurn(db: D.Db, connected: bool, g: GroupName, peer: TorId): Turn
    requires g in db.groups
  {
    var last := D.GroupConfigGetInt64(db, g, "LastMessage");
    if !connected || !last.Number? then Idle
    else
      var next := D.GetNextArticle(db, last.n);
      if !next.Found? then Idle
      else if peer in Split(next.article.path, '!') then SkippedPath(next.num)
      else if !Readable(db, peer, next.article.newsgroups) then SkippedPerms(next.num)
      else Attempted(next.num, next.article)
  }

  /** The cursor in group g is written. */
  function CursorAt(db: D.Db, g: GroupName, num: int): D.Db
    requires g in db.groups
  {
    D.GroupConfigSet(db, g, "LastMessage", D.Num(num)).0
  }

  /** GetPerms answers for every group of the next article; SendMessages
      dereferences the answer. */
  ghost predicate PermsKnown(db: D.Db, g: GroupName, peer: TorId)
    requires g in db.groups
  {
    var last := D.GroupConfigGetInt64(db, g, "LastMessage");
    last.Number? && D.GetNextArticle(db, last.n).Found? ==>
      forall i | 0 <= i < |Split(D.GetNextArticle(db, last.n).article.newsgroups, ',')| ::
        D.GetPerms(db, peer, Split(D.GetNextArticle(db, last.n).article.newsgroups, ',')[i]).Some?
  }

  /** conn is the key at the far end of the connection, while the source has one. */
  class Peer {
    const store: ArticleStore
    const peerTorId: TorId
    const groupName: GroupName
    var conn: Option<nat>

    constructor (store: ArticleStore, peerTorId: TorId)
      ensures this.store == store && this.peerTorId == peerTorId && conn == None
      ensures groupName == D.PeerGroup(store.me, peerTorId)
    {
      this.store, this.peerTorId := store, peerTorId;
      groupName := D.PeerGroup(store.me, peerTorId);
      conn := None;
    }

    /** Dial and authenticate, unless connected: a connection is kept exactly when
        somebody was reached and the handshake trusted its key, whoever's key that
        is.  The field is never cleared again. */
    method Connect(dialled: bool, handshake: HandshakeIo.Outcome)
      requires conn.None? && dialled ==> !handshake.Panics?
      modifies this
      ensures conn == if old(conn).None? && dialled && handshake.Trusted? then Some(handshake.key) else old(conn)
    {
      if conn.Some? || !dialled {
        return;
      }
      match handshake {
        case Rejected => return;
        case Trusted(authed) => conn := Some(authed);
      }
    }

    method PathNamesPeer(path: string) returns (named: bool)
      ensures named == (peerTorId in Split(path, '!'))
    {
      var splitPath := Split(path, '!');
      for i := 0 to |splitPath|
        invariant forall j | 0 <= j < i :: splitPath[j] != peerTorId
      {
        if splitPath[i] == peerTorId {
          return true;
        }
      }
      named := false;
    }

    method MayReadSome(newsgroups: string) returns (allowed: bool)
      requires forall i | 0 <= i < |Split(newsgroups, ',')| ::
                 D.GetPerms(store.View(), peerTorId, Split(newsgroups, ',')[i]).Some?
      ensures allowed == Readable(store.View(), peerTorId, newsgroups)
    {
      allowed := false;
      var splitGroups := Split(newsgroups, ',');
      for i := 0 to |splitGroups|
        invariant allowed <==> exists j :: 0 <= j < i && MayRead(store.View(), peerTorId, splitGroups[j])
      {
        var perms := store.GetPerms(peerTorId, splitGroups[i]);
        if perms.value.read {
          allowed := true;
        }
      }
    }

    /** One turn: look at the first article above the cursor, skip or post it,
        and move the cursor to its number whatever became of it. */
    method SendMessages() returns (turn: Turn)
      requires RowsOk(store.View()) && groupName in store.groups
      requires PermsKnown(store.View(), groupName, peerTorId)
      modifies store
      ensures turn == NextTurn(old(store.View()), conn.Some?, groupName, peerTorId)
      ensures store.View() == if turn.Idle? then old(store.View())
                              else CursorAt(old(store.View()), groupName, turn.num)
    {
      if conn.None? {
        return Idle;
      }
      var last := store.GroupConfigGetInt64(groupName, "LastMessage");
      if !last.Number? {
        return Idle;
      }
      var next := store.GetNextArticle(last.n);
      NextReplyUnique(store.View(), last.n, next);
      if !next.Found? {
        return Idle;
      }
      var named := PathNamesPeer(next.article.path);
      if named {
        turn := SkippedPath(next.num);
      } else {
        var allowed := MayReadSome(next.article.newsgroups);
        turn := if allowed then Attempted(next.num, next.article) else SkippedPerms(next.num);
      }
      var r := store.GroupConfigSet(groupName, "LastMessage", D.Num(next.num));
    }
  }

  // ---- who is at the far end ------------------------------------------------

  /** Distinct keys have distinct ids. */
  ghost predicate OwnIds(c: H.Crypto) {
    forall j: nat, k: nat :: c.torId(j) == c.torId(k) ==> j == k
  }

  /** The connection that a Peer keeps leads to its peer if and only if the id of the
      key that the handshake trusted is the peer's: a test on what Connect has in
      hand, and drops.  The peer's posts, with the permissions of its id, go to
      whoever holds that key.  i is the handshake's run, far the trusted key. */
  lemma ConnectionIsPeers(c: H.Crypto, honest: set<nat>, steps: seq<H.Step>, i: nat, peer: TorId, far: nat)
    requires H.Sound(c) && OwnIds(c) && H.IsRun(c, honest, H.EMPTY, steps)
    requires var w := H.Final(c, H.EMPTY, steps);
             && i < |w.clients| && w.clients[i].response.Some? && w.clients[i].response.value != []
             && w.clients[i].dialled in honest && c.torId(w.clients[i].dialled) == peer
             && c.keyOf(w.clients[i].response.value[0]) == Some(far)
    ensures var w := H.Final(c, H.EMPTY, steps);
            && (c.torId(far) == peer <==> exists j: nat :: H.DialledAnswers(c, w, i, j))
            && (c.torId(far) == peer ==> far == w.clients[i].dialled)
  {
    H.DialledPeerAnswers(c, honest, steps, i);
  }

  // ---- the peer set ---------------------------------------------------------

  class Peers {
    const store: ArticleStore
    var conns: map<TorId, Peer>
    var workers: multiset<TorId>

    function View(): R.Hub
      reads this, store
    {
      R.Hub(store.View(), conns.Keys, workers)
    }

    constructor (store: ArticleStore)
      ensures this.store == store && conns == map[] && workers == multiset{}
    {
      this.store := store;
      conns, workers := map[], multiset{};
    }

    /** CmdConnect: a new Peer, whose worker starts with it, for every registered id,
        also where there is one. */
    method Connect()
      modifies this
      ensures View() == R.PeersConnect(old(View()))
    {
      for i := 0 to |store.peers|
        invariant conns.Keys == old(conns.Keys) + R.AsSet(store.peers[..i])
        invariant workers == old(workers) + multiset(store.peers[..i])
        invariant store.View() == old(store.View())
      {
        var torid := store.peers[i];
        assert store.peers[..i + 1] == store.peers[..i] + [torid];
        assert R.AsSet(store.peers[..i + 1]) == R.AsSet(store.peers[..i]) + {torid};
        var peer := new Peer(store, torid);
        conns, workers := conns[torid := peer], workers + multiset{torid};
      }
      assert store.peers[..|store.peers|] == store.peers;
    }

    /** CmdAddPeer: refuse the node itself and ids that are registered. */
    method AddPeer(torid: TorId) returns (ok: bool)
      requires torid == store.me || D.Runs(store.View(), D.CmdAddPeer(torid))
      modifies this, store
      ensures (View(), ok) == R.PeersAddPeer(old(View()), torid)
    {
      if torid == store.me {
        return false;
      }
      var r := store.AddPeer(torid);
      if r == D.Error {
        return false;
      }
      var peer := new Peer(store, torid);
      conns, workers := conns[torid := peer], workers + multiset{torid};
      assert conns.Keys == old(conns.Keys) + {torid};
      ok := true;
    }

    /** CmdRemovePeer: only the entry goes; the peer stays registered, and its
        worker, which does not know the command, goes on sending.  An id without an
        entry panics. */
    method RemovePeer(torid: TorId) returns (panics: bool)
      modifies this
      ensures panics <==> torid !in old(conns)
      ensures View() == R.PeersRemovePeer(old(View()), torid)
    {
      if torid !in conns {
        assert conns.Keys - {torid} == conns.Keys;
        return true;
      }
      conns := conns - {torid};
      panics := false;
    }
  }
}
