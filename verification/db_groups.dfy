/** Group summaries (section 6.1.1.2 of RFC 3977) and group permissions. */
module ArticleGroups {
  import opened Options
  import opened Sets
  import opened Text
  import opened ArticleDb
  import opened ArticleRefs
  import opened ArticleRuns

  // ---- summaries ------------------------------------------------------------

  /** Whatever GetGroup reports brackets every number in the group with a number
      that is there, and is empty exactly for an empty group; as numbers are
      distinct, the count fits between the bounds. */
  lemma SummaryBounds(db: Db, torid: TorId, g: GroupName)
    requires Valid(db) && GetGroup(db, torid, g).Summary?
    ensures g in db.groups
    ensures var r, index := GetGroup(db, torid, g), db.groups[g].index;
            && (forall m | m in index :: r.low <= index[m] <= r.high)
            && (index != map[] ==> 0 < r.low && r.low in index.Values && r.high in index.Values)
            && (index != map[] ==> 0 < r.count <= r.high - r.low + 1)
            && (index == map[] ==> r.low == 0 && r.high == 0 && r.count == 0)
  {
    var r := GetGroup(db, torid, g);
    assert GroupReply(db, torid, g, r);
    var index := db.groups[g].index;
    if index != map[] {
      IndexFits(db, g, r.low, r.high);
      var m :| m in index && index[m] == r.low;
      assert db.rows[m].id > 0;
      NonEmptyCount(index);
    }
  }

  lemma NonEmptyCount(index: map<MsgId, int>)
    requires index != map[]
    ensures |index| > 0
  {
    var m :| m in index;
    assert m in index.Keys;
  }

  lemma IndexFits(db: Db, g: GroupName, low: int, high: int)
    requires RowsOk(db) && IndexesOk(db) && g in db.groups
    requires forall m | m in db.groups[g].index :: low <= db.groups[g].index[m] <= high
    requires db.groups[g].index != map[]
    ensures |db.groups[g].index| <= high - low + 1
  {
    var index := db.groups[g].index;
    var m :| m in index;
    assert low <= index[m] <= high;
    forall a, b | a in index && b in index && index[a] == index[b] ensures a == b {
      assert db.rows[a].id == db.rows[b].id;
    }
    InjectionBound(index.Keys, index.Values, index);
    IntervalBound(index.Values, low, high);
  }

  /** The summary exists, so GetGroup answers every session that may read. */
  lemma SummaryExists(db: Db, torid: TorId, g: GroupName)
    requires g in db.groups
    requires var p := GetPerms(db, torid, g); p.None? || p.value.read
    ensures GetGroup(db, torid, g).Summary?
  {
    var index := db.groups[g].index;
    var low := LowestOf(index, index.Keys);
    var high := HighestOf(index, index.Keys);
    assert GroupReply(db, torid, g, Summary(low, high, |index|));
  }

  lemma {:induction false} LowestOf(index: map<MsgId, int>, ms: set<MsgId>) returns (n: int)
    requires ms <= index.Keys
    ensures ms == {} ==> n == 0
    ensures ms != {} ==> (exists m :: m in ms && index[m] == n) && forall m | m in ms :: n <= index[m]
    decreases |ms|
  {
    if ms == {} {
      n := 0;
    } else {
      var m :| m in ms;
      n := LowestOf(index, ms - {m});
      if ms == {m} || index[m] < n {
        n := index[m];
      }
    }
  }

  lemma {:induction false} HighestOf(index: map<MsgId, int>, ms: set<MsgId>) returns (n: int)
    requires ms <= index.Keys
    ensures ms == {} ==> n == 0
    ensures ms != {} ==> (exists m :: m in ms && index[m] == n) && forall m | m in ms :: index[m] <= n
    decreases |ms|
  {
    if ms == {} {
      n := 0;
    } else {
      var m :| m in ms;
      n := HighestOf(index, ms - {m});
      if ms == {m} || index[m] > n {
        n := index[m];
      }
    }
  }

  /** The low mark of a non-empty group falls when an article is indexed exactly
      when that article's number lies below it. */
  lemma LowFallsExactly(db: Db, g: GroupName, mid: MsgId, id: int, low: int, low': int)
    requires g in db.groups && db.groups[g].index != map[] && mid !in db.groups[g].index
    requires IsLow(db.groups[g].index, low)
    requires IsLow(AddArticleToGroup(db, g, mid, id).0.groups[g].index, low')
    ensures low' < low <==> id < low
  {
    var index := db.groups[g].index;
    var d := AddArticleToGroup(db, g, mid, id).0;
    assert d.groups[g].index == index[mid := id];
    var a :| a in index && index[a] == low;
    assert d.groups[g].index[a] == low && d.groups[g].index[mid] == id;
  }

  /** Posts do not interleave between storing and indexing: what is indexed is
      always the article numbered last. */
  ghost predicate NoInterleaving(db: Db, ops: seq<Op>)
    requires IsRun(db, ops)
    decreases |ops|
  {
    ops == [] || ((ops[0].Do? && ops[0].c.CmdAddArticleToGroup? ==> ops[0].c.id == db.lastId)
                  && NoInterleaving(Perform(db, ops[0]), ops[1..]))
  }

  ghost predicate StaysNonEmpty(db: Db, ops: seq<Op>, g: GroupName)
    requires IsRun(db, ops)
    decreases |ops|
  {
    g in db.groups && db.groups[g].index != map[]
    && (ops == [] || StaysNonEmpty(Perform(db, ops[0]), ops[1..], g))
  }

  /** Every number in the group is at least floor. */
  ghost predicate AtLeast(db: Db, g: GroupName, floor: int) {
    g in db.groups && forall m | m in db.groups[g].index :: floor <= db.groups[g].index[m]
  }

  lemma CancelKeepsFloor(db: Db, from: TorId, mid: MsgId, newsgroups: string, g: GroupName, floor: int)
    requires FilesOk(db) && Runs(db, CmdCancelMessage(from, mid, newsgroups)) && AtLeast(db, g, floor)
    ensures AtLeast(CancelMessage(db, from, mid, newsgroups, AsWritten).0, g, floor)
  {
    CancelMessageEffect(db, from, mid, newsgroups);
  }

  lemma OpKeepsFloor(db: Db, op: Op, g: GroupName, floor: int)
    requires FilesOk(db) && Allowed(db, op)
    requires op.Do? && op.c.CmdAddArticleToGroup? ==> op.c.id == db.lastId
    requires floor <= db.lastId && AtLeast(db, g, floor) && g in Perform(db, op).groups
    ensures AtLeast(Perform(db, op), g, floor)
  {
    if op.Do? && op.c.CmdCancelMessage? {
      CancelKeepsFloor(db, op.c.from, op.c.mid, op.c.newsgroups, g, floor);
    } else if !Files(op) {
      OtherOpsKeepFiling(db, op);
    }
  }

  lemma {:induction false} RunKeepsFloor(db: Db, ops: seq<Op>, g: GroupName, floor: int)
    requires Valid(db) && IsRun(db, ops) && ProperRun(db, ops) && NoInterleaving(db, ops) && StaysNonEmpty(db, ops, g)
    requires floor <= db.lastId && AtLeast(db, g, floor)
    ensures AtLeast(Final(db, ops), g, floor)
    decreases |ops|
  {
    if ops != [] {
      OpValid(db, ops[0]);
      LastIdGrows(db, ops[0]);
      OpKeepsFloor(db, ops[0], g, floor);
      RunKeepsFloor(Perform(db, ops[0]), ops[1..], g, floor);
    }
  }

  /** Over every run whose posts do not interleave, cancels and restarts included,
      the low mark of a group that stays non-empty never falls. */
  lemma LowNeverFalls(db: Db, ops: seq<Op>, g: GroupName, low: int, low': int)
    requires Valid(db) && IsRun(db, ops) && ProperRun(db, ops) && NoInterleaving(db, ops) && StaysNonEmpty(db, ops, g)
    requires g in Final(db, ops).groups && Final(db, ops).groups[g].index != map[]
    requires IsLow(db.groups[g].index, low) && IsLow(Final(db, ops).groups[g].index, low')
    ensures low <= low'
  {
    var m :| m in db.groups[g].index && db.groups[g].index[m] == low;
    assert low == db.rows[m].id <= db.lastId;
    RunKeepsFloor(db, ops, g, low);
  }

  // ---- permissions ----------------------------------------------------------

  /** k is the last card entry for torid. */
  ghost predicate LastEntry(card: seq<CardEntry>, torid: TorId, k: nat) {
    k < |card| && card[k].torid == torid && forall j | k < j < |card| :: card[j].torid != torid
  }

  ghost predicate Listed(card: seq<CardEntry>, torid: TorId) {
    exists k: nat :: LastEntry(card, torid, k)
  }

  /** The table built by the insert-or-replace loop has, for each id, its last
      entry on the card and nothing for the others. */
  lemma {:induction false} PermsTableIsLast(card: seq<CardEntry>, torid: TorId)
    ensures torid in PermsTable(card) <==> Listed(card, torid)
    ensures forall k: nat | LastEntry(card, torid, k) :: torid in PermsTable(card) && PermsTable(card)[torid] == card[k].perms
    decreases |card|
  {
    if card != [] {
      var n := |card| - 1;
      var front := card[..n];
      PermsTableIsLast(front, torid);
      forall k: nat | k < n ensures LastEntry(card, torid, k) <==> LastEntry(front, torid, k) && card[n].torid != torid {
        if LastEntry(front, torid, k) && card[n].torid != torid {
          forall j | k < j < |card| ensures card[j].torid != torid {
            if j < n {
              assert front[j].torid != torid;
            }
          }
        }
        if LastEntry(card, torid, k) {
          forall j | k < j < n ensures front[j].torid != torid {
            assert card[j].torid != torid;
          }
        }
      }
      if card[n].torid == torid {
        assert LastEntry(card, torid, n);
      } else if Listed(front, torid) {
        var k: nat :| LastEntry(front, torid, k);
        assert LastEntry(card, torid, k);
      }
    }
  }

  /** Access a card grants: the owner everything, else what the last entry for
      the id says, else the last entry for `group`, else no answer. */
  ghost predicate CardGrants(owner: TorId, card: seq<CardEntry>, torid: TorId, p: Option<Perms>) {
    if torid == owner then p == Some(ALL_PERMS)
    else if Listed(card, torid) then exists k: nat :: LastEntry(card, torid, k) && p == Some(card[k].perms)
    else if Listed(card, "group") then exists k: nat :: LastEntry(card, "group", k) && p == Some(card[k].perms)
    else p == None
  }

  /** For every card and every id, GetPerms on a new group answers what the card
      grants, and on every other group what it answered before (an id that is
      told nothing on an empty server is told "no rights" from then on). */
  lemma NewGroupGrants(db: Db, name: GroupName, description: string, card: seq<CardEntry>, torid: TorId)
    requires NewGroup(db, name, description, card).1 == Done
    ensures var d := NewGroup(db, name, description, card).0;
            && CardGrants(Owner(name), card, torid, GetPerms(d, torid, name))
            && forall g | g != name && db.groups != map[] :: GetPerms(d, torid, g) == GetPerms(db, torid, g)
  {
    var d := NewGroup(db, name, description, card).0;
    PermsTableIsLast(card, torid);
    PermsTableIsLast(card, "group");
    assert name in d.groups && d.groups[name].perms == PermsTable(card);
  }

  const PEER_PERMS := Perms(true, true, true, false, false)

  /** The card CreatePeerGroup puts into its control message. */
  function PeerCard(peer: TorId): seq<CardEntry> {
    [CardEntry("group", NO_PERMS), CardEntry(peer, PEER_PERMS)]
  }

  lemma PeerGroupOwner(me: TorId, peer: TorId)
    requires '.' !in me
    ensures Owner(PeerGroup(me, peer)) == me
  {
    assert PeerGroup(me, peer) == me + ['.'] + ("peers." + peer);
    SplitPrefix(me, "peers." + peer, '.');
  }

  /** On a peer group exactly the owner has full rights, exactly the peer may
      otherwise read, reply and post, and nobody else anything; unless the peer is
      called "group", which opens it to all. */
  lemma PeerGroupGrants(db: Db, me: TorId, peer: TorId, description: string, torid: TorId)
    requires '.' !in me
    requires NewGroup(db, PeerGroup(me, peer), description, PeerCard(peer)).1 == Done
    ensures var d := NewGroup(db, PeerGroup(me, peer), description, PeerCard(peer)).0;
            GetPerms(d, torid, PeerGroup(me, peer))
            == Some(if torid == me then ALL_PERMS else if torid == peer || peer == "group" then PEER_PERMS else NO_PERMS)
  {
    var card := PeerCard(peer);
    PeerGroupOwner(me, peer);
    NewGroupGrants(db, PeerGroup(me, peer), description, card, torid);
    assert LastEntry(card, peer, 1);
    if peer != "group" {
      assert LastEntry(card, "group", 0);
    }
  }
}
