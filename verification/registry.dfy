/** The peer registry: control messages (pkg/messages/control.go) acting on the
    article database and on the set of live connections
    (internal/peering/peering.go). */
module Registry {
  import opened Options
  import opened Text
  import opened ArticleDb
  import NewgroupText

  /** `conns` holds the ids with an entry in the peer set, `workers` every Peer
      whose worker was started, by id: a worker never ends. */
  datatype Hub = Hub(db: Db, conns: set<TorId>, workers: multiset<TorId>)

  function AsSet(ids: seq<TorId>): set<TorId> {
    set x | x in ids
  }

  /** The AddPeer command of Peers.Worker; false is the error answer. */
  function PeersAddPeer(h: Hub, torid: TorId): (Hub, bool)
    requires torid == h.db.me || Runs(h.db, CmdAddPeer(torid))
  {
    if torid == h.db.me then (h, false)
    else
      var (d, r) := AddPeer(h.db, torid);
      if r == Error then (h, false) else (Hub(d, h.conns + {torid}, h.workers + multiset{torid}), true)
  }

  function PeersConnect(h: Hub): Hub {
    h.(conns := h.conns + AsSet(h.db.peers), workers := h.workers + multiset(h.db.peers))
  }

  function PeersRemovePeer(h: Hub, torid: TorId): Hub {
    h.(conns := h.conns - {torid})
  }

  // ---- control messages -----------------------------------------------------

  /** A newgroup whose From owns the group it names. */
  predicate OwnedNewgroup(a: Article) {
    var words := Split(a.control, ' ');
    words[0] == "newgroup" && |words| >= 2 && Owner(words[1]) == a.from
  }

  /** A newgroup for `<session>.peers.<id>`. */
  predicate PeeringName(name: GroupName, session: TorId) {
    var parts := Split(name, '.');
    |parts| == 3 && parts[0] == session && parts[1] == "peers"
  }

  /** Where the source would panic (too few words, a description part it cannot
      slice, a peer without a group) or runs code outside this model (sendme,
      cancels in peer groups), the message is not handled here. */
  predicate ControlRuns(h: Hub, a: Article, session: TorId) {
    var words := Split(a.control, ' ');
    && words[0] != "sendme"
    && (words[0] == "cancel" || words[0] == "newgroup" ==> |words| >= 2)
    && (words[0] == "cancel" ==> Runs(h.db, CmdCancelMessage(a.from, words[1], a.newsgroups)))
    && (OwnedNewgroup(a) ==>
          && NewgroupText.ReadInfos(a.control, a.infos).Value?
          && (PeeringName(words[1], session) && words[1] !in h.db.groups ==>
                var peer := Split(words[1], '.')[2];
                peer == h.db.me || peer in h.db.peers || PeerGroup(h.db.me, peer) in h.db.groups
                || PeerGroup(h.db.me, peer) == words[1]))
  }

  /** CheckControl: the new state, and false when Post is to fail. */
  function CheckControl(h: Hub, a: Article, session: TorId): (Hub, bool)
    requires ControlRuns(h, a, session)
  {
    var words := Split(a.control, ' ');
    if words[0] == "cancel" then
      (h.(db := CancelMessage(h.db, a.from, words[1], a.newsgroups, AsWritten).0), true)
    else if OwnedNewgroup(a) then
      var description := NewgroupText.ReadInfos(a.control, a.infos).s;
      var (d, r) := NewGroup(h.db, words[1], description, a.card);
      if r == Error then (h, false)
      else if PeeringName(words[1], session) then PeersAddPeer(h.(db := d), Split(words[1], '.')[2])
      else (h.(db := d), true)
    else (h, true)
  }

  // ---- the registry invariant -----------------------------------------------

  predicate Configured(db: Db, peer: TorId) {
    var g := PeerGroup(db.me, peer);
    g in db.groups && {"LastMessage", "Feed", "ControlMessages"} <= db.groups[g].config.Keys
  }

  ghost predicate RegistryOk(h: Hub) {
    && (forall p | p in h.db.peers :: Configured(h.db, p))
    && (forall i, j | 0 <= i < j < |h.db.peers| :: h.db.peers[i] != h.db.peers[j])
    && h.db.me !in h.db.peers
    && h.conns <= AsSet(h.db.peers)
    && (forall p | p in h.conns :: p in h.workers)
    && (forall p | p in h.workers :: p in h.db.peers)
  }

  datatype RegistryOp =
    | Control(a: Article, session: TorId)
    | Connect
    | RemovePeer(torid: TorId)
    | Query(c: Cmd)
    | Reboot(now: int)

  ghost predicate Allowed(h: Hub, op: RegistryOp) {
    match op
    case Control(a, session) => ControlRuns(h, a, session)
    case Query(c) => Runs(h.db, c) && !c.CmdAddPeer?
    case Reboot(now) => Reopen(h.db, now).Some?
    case _ => true
  }

  ghost function Perform(h: Hub, op: RegistryOp): Hub
    requires Allowed(h, op)
  {
    match op
    case Control(a, session) => CheckControl(h, a, session).0
    case Connect => PeersConnect(h)
    case RemovePeer(torid) => PeersRemovePeer(h, torid)
    case Query(c) => h.(db := Apply(h.db, c).0)
    case Reboot(now) => Hub(Reopen(h.db, now).value, {}, multiset{})
  }

  ghost predicate IsRun(h: Hub, ops: seq<RegistryOp>)
    decreases |ops|
  {
    ops == [] || (Allowed(h, ops[0]) && IsRun(Perform(h, ops[0]), ops[1..]))
  }

  ghost function Final(h: Hub, ops: seq<RegistryOp>): Hub
    requires IsRun(h, ops)
    decreases |ops|
  {
    if ops == [] then h else Final(Perform(h, ops[0]), ops[1..])
  }

  /** No group disappears and none loses a setting; the peer list stays. */
  ghost predicate SettingsKept(db: Db, d: Db) {
    && d.me == db.me && d.peers == db.peers
    && forall g | g in db.groups :: g in d.groups && db.groups[g].config.Keys <= d.groups[g].config.Keys
  }

  lemma {:induction false} CancelGroupsSettings(db: Db, gs: seq<GroupName>, mid: MsgId, sig: Sig)
    requires forall g | g in gs :: g in db.groups
    ensures SettingsKept(db, CancelGroups(db, gs, mid, sig, AsWritten).0)
    decreases |gs|
  {
    if gs != [] {
      var (d, stop) := CancelInGroup(db, gs[0], mid, sig, AsWritten);
      assert SettingsKept(db, d);
      if !stop {
        CancelGroupsSettings(d, gs[1..], mid, sig);
      }
    }
  }

  lemma CancelSettings(db: Db, from: TorId, mid: MsgId, newsgroups: string)
    requires Runs(db, CmdCancelMessage(from, mid, newsgroups))
    ensures SettingsKept(db, CancelMessage(db, from, mid, newsgroups, AsWritten).0)
  {
    if GetArticleById(db, mid).Found? {
      var a := GetArticleById(db, mid).article;
      if a.from == from {
        CancelGroupsSettings(db, CancelTargets(db, from, mid, newsgroups), mid, a.signature);
      }
    }
  }

  lemma QuerySettings(db: Db, c: Cmd)
    requires Runs(db, c) && !c.CmdAddPeer?
    ensures SettingsKept(db, Apply(db, c).0)
  {
    if c.CmdCancelMessage? {
      CancelSettings(db, c.from, c.mid, c.newsgroups);
    }
  }

  lemma SettingsKeptOk(h: Hub, d: Db)
    requires RegistryOk(h) && SettingsKept(h.db, d)
    ensures RegistryOk(h.(db := d))
  {
    forall p | p in d.peers ensures Configured(d, p) {
      assert Configured(h.db, p);
    }
  }

  lemma AddPeerOk(h: Hub, torid: TorId)
    requires RegistryOk(h) && (torid == h.db.me || Runs(h.db, CmdAddPeer(torid)))
    ensures RegistryOk(PeersAddPeer(h, torid).0)
  {
    var (t, ok) := PeersAddPeer(h, torid);
    if ok {
      forall p | p in t.db.peers ensures Configured(t.db, p) {
        if p != torid {
          assert p in h.db.peers && Configured(h.db, p);
        }
      }
      assert t.db.peers == h.db.peers + [torid];
    }
  }

  lemma ControlOk(h: Hub, a: Article, session: TorId)
    requires RegistryOk(h) && ControlRuns(h, a, session)
    ensures RegistryOk(CheckControl(h, a, session).0)
  {
    var words := Split(a.control, ' ');
    if words[0] == "cancel" {
      CancelSettings(h.db, a.from, words[1], a.newsgroups);
      SettingsKeptOk(h, CancelMessage(h.db, a.from, words[1], a.newsgroups, AsWritten).0);
    } else if OwnedNewgroup(a) {
      var description := NewgroupText.ReadInfos(a.control, a.infos).s;
      var (d, r) := NewGroup(h.db, words[1], description, a.card);
      SettingsKeptOk(h, d);
      if r != Error && PeeringName(words[1], session) {
        AddPeerOk(h.(db := d), Split(words[1], '.')[2]);
      }
    }
  }

  lemma OpOk(h: Hub, op: RegistryOp)
    requires RegistryOk(h) && Allowed(h, op)
    ensures RegistryOk(Perform(h, op))
  {
    match op {
      case Control(a, session) => ControlOk(h, a, session);
      case Query(c) =>
        QuerySettings(h.db, c);
        SettingsKeptOk(h, Apply(h.db, c).0);
      case Reboot(now) =>
        SettingsKeptOk(h.(conns := {}, workers := multiset{}), Reopen(h.db, now).value);
      case _ =>
    }
  }

  /** Over every run of control messages from any session, database commands,
      connects, removals and restarts, from any hub that is in order (an empty one
      is): each registered peer has its own configured group, none is registered
      twice, the node is never its own peer, each entry in the peer set has a worker
      and each worker belongs to a registered peer. */
  lemma {:induction false} RegistryInvariant(h: Hub, ops: seq<RegistryOp>)
    requires RegistryOk(h) && IsRun(h, ops)
    ensures RegistryOk(Final(h, ops))
    decreases |ops|
  {
    if ops != [] {
      OpOk(h, ops[0]);
      RegistryInvariant(Perform(h, ops[0]), ops[1..]);
    }
  }

  /** No peer is served by two workers, which would share one cursor. */
  ghost predicate SingleWorkers(h: Hub) {
    forall p | p in h.workers :: h.workers[p] == 1
  }

  /** An operation keeps one worker per peer exactly when it is not a connect that
      finds a registered peer with a worker: connecting is for the start, before
      any control message has added a peer. */
  lemma SingleWorkersStep(h: Hub, op: RegistryOp)
    requires RegistryOk(h) && SingleWorkers(h) && Allowed(h, op)
    ensures SingleWorkers(Perform(h, op)) <==> !op.Connect? || h.workers == multiset{}
  {
    match op {
      case Connect =>
        var w := h.workers + multiset(h.db.peers);
        ListedOnce(h.db.peers);
        if h.workers != multiset{} {
          var p :| p in h.workers;
          assert w[p] == h.workers[p] + multiset(h.db.peers)[p] && p in h.db.peers;
          assert p in w;
        }
        assert Perform(h, op).workers == w;
      case Control(a, session) => ControlWorkers(h, a, session);
      case _ =>
    }
  }

  lemma {:induction false} ListedOnce(ids: seq<TorId>)
    requires forall i, j | 0 <= i < j < |ids| :: ids[i] != ids[j]
    ensures forall p | p in ids :: multiset(ids)[p] == 1
    decreases |ids|
  {
    if ids != [] {
      var front, last := ids[..|ids| - 1], ids[|ids| - 1];
      ListedOnce(front);
      assert ids == front + [last];
      assert last !in front;
      assert multiset(ids) == multiset(front) + multiset{last};
      forall p | p in ids ensures multiset(ids)[p] == 1 {
        assert p == last || p in front;
        assert p == last ==> multiset(front)[p] == 0;
      }
    }
  }

  /** A control message starts at most one worker, for a peer that had none. */
  lemma ControlWorkers(h: Hub, a: Article, session: TorId)
    requires RegistryOk(h) && ControlRuns(h, a, session)
    ensures var t := CheckControl(h, a, session).0;
            t.workers == h.workers || exists p :: p !in h.workers && t.workers == h.workers + multiset{p}
  {
    var words := Split(a.control, ' ');
    if words[0] != "cancel" && OwnedNewgroup(a) {
      var description := NewgroupText.ReadInfos(a.control, a.infos).s;
      var (d, r) := NewGroup(h.db, words[1], description, a.card);
      if r != Error && PeeringName(words[1], session) {
        var peer := Split(words[1], '.')[2];
        assert d.peers == h.db.peers;
        assert peer !in h.db.peers ==> peer !in h.workers;
      }
    }
  }

  lemma PeerGroupParts(me: TorId, peer: TorId)
    requires '.' !in me && '.' !in peer
    ensures Split(PeerGroup(me, peer), '.') == [me, "peers", peer]
  {
    assert PeerGroup(me, peer) == me + ['.'] + ("peers" + ['.'] + peer);
    SplitPrefix(me, "peers" + ['.'] + peer, '.');
    SplitPrefix("peers", peer, '.');
    SplitPlain(peer, '.');
  }

  /** A local newgroup for `<me>.peers.<id>` with a new id registers and connects
      exactly that peer, its cursor at 0; for the node's own id it fails with the
      registry as it was. */
  lemma LocalPeering(h: Hub, a: Article, peer: TorId)
    requires RegistryOk(h) && ControlRuns(h, a, h.db.me)
    requires '.' !in h.db.me && '.' !in peer && a.from == h.db.me
    requires OwnedNewgroup(a) && Split(a.control, ' ')[1] == PeerGroup(h.db.me, peer)
    requires PeerGroup(h.db.me, peer) !in h.db.groups
    ensures var (t, ok) := CheckControl(h, a, h.db.me);
            && (ok <==> peer != h.db.me)
            && t.db.peers == h.db.peers + (if ok then [peer] else [])
            && t.conns == h.conns + (if ok then {peer} else {})
            && PeerGroup(h.db.me, peer) in t.db.groups
            && (ok ==> t.db.groups[PeerGroup(h.db.me, peer)].config["LastMessage"] == Num(0)
                       && t.db.groups[PeerGroup(h.db.me, peer)].config["Feed"] == Words(peer))
  {
    PeerGroupParts(h.db.me, peer);
    assert peer !in h.db.peers by {
      assert forall p | p in h.db.peers :: Configured(h.db, p);
    }
  }

  /** A peer is added if and only if it is another node that is not registered: it goes
      to the end of the list, with an entry and a worker; otherwise nothing changes. */
  lemma AddsExactly(h: Hub, torid: TorId)
    requires torid == h.db.me || Runs(h.db, CmdAddPeer(torid))
    ensures var (t, ok) := PeersAddPeer(h, torid);
            && (ok <==> torid != h.db.me && torid !in h.db.peers) && (!ok ==> t == h)
            && (ok ==> t.db.peers == h.db.peers + [torid] && t.conns == h.conns + {torid} && t.workers == h.workers + multiset{torid})
  {
  }

  /** Connecting gives every registered peer an entry; removing takes one entry and
      nothing else, and connecting again brings it back with one more worker. */
  lemma RemovedComesBack(h: Hub, torid: TorId)
    requires RegistryOk(h) && torid in h.db.peers
    ensures PeersConnect(h).conns == AsSet(h.db.peers)
    ensures var t := PeersRemovePeer(h, torid);
            && torid !in t.conns && (forall p | p != torid :: p in t.conns <==> p in h.conns)
            && t.workers == h.workers && t.db == h.db
            && PeersConnect(t).conns == AsSet(h.db.peers) && PeersConnect(t).workers[torid] == h.workers[torid] + 1
  {
    ListedOnce(h.db.peers);
  }

  // ---- two workers for one peer ---------------------------------------------

  function EmptyHub(me: TorId): Hub {
    Hub(Blank(me), {}, multiset{})
  }

  /** A local newgroup that peers me with another node. */
  function Peering(me: TorId, peer: TorId): Article {
    Article("", "", me, "", "", "newgroup " + PeerGroup(me, peer), [], [])
  }

  lemma PeeringWords(me: TorId, peer: TorId)
    requires ' ' !in me && ' ' !in peer
    ensures Split(Peering(me, peer).control, ' ') == ["newgroup", PeerGroup(me, peer)]
  {
    var g := PeerGroup(me, peer);
    assert "newgroup " + g == "newgroup" + [' '] + g;
    SplitPrefix("newgroup", g, ' ');
    SplitPlain(g, ' ');
  }

  lemma PeeringTaken(me: TorId, peer: TorId)
    requires '.' !in me && '.' !in peer && ' ' !in me && ' ' !in peer && me != peer
    ensures ControlRuns(EmptyHub(me), Peering(me, peer), me)
    ensures var t := CheckControl(EmptyHub(me), Peering(me, peer), me).0;
            t.workers == multiset{peer} && t.db.peers == [peer]
  {
    PeeringWords(me, peer);
    PeerGroupParts(me, peer);
    assert OwnedNewgroup(Peering(me, peer));
  }

  /** A run from an empty hub: a local newgroup is dealt with before the connect at
      the start is, and the peer that it adds has two workers. */
  lemma SecondWorker(me: TorId, peer: TorId) returns (ops: seq<RegistryOp>)
    requires '.' !in me && '.' !in peer && ' ' !in me && ' ' !in peer && me != peer
    ensures RegistryOk(EmptyHub(me)) && SingleWorkers(EmptyHub(me)) && IsRun(EmptyHub(me), ops)
    ensures Final(EmptyHub(me), ops).workers == multiset{peer, peer}
  {
    ops := [Control(Peering(me, peer), me), Connect];
    PeeringTaken(me, peer);
    var t := Perform(EmptyHub(me), ops[0]);
    assert ops[1..] == [Connect] && [Connect][1..] == [];
    assert Perform(t, Connect).workers == multiset{peer} + multiset([peer]);
  }
}
