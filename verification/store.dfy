/** The database server's state and its command handlers
    (internal/databases/databases.go), proved against ArticleDb. */
module ArticleStores {
  import opened Options
  import opened Text
  import D = ArticleDb
  import opened ArticleRefs
  import G = ArticleGroups

  type MsgId = D.MsgId
  type Sig = D.Sig
  type TorId = D.TorId
  type GroupName = D.GroupName
  type Reply = D.Reply

  lemma RequestedStep(asked: seq<GroupName>, i: nat, named: seq<GroupName>)
    requires i < |asked|
    ensures D.Requested(asked[i..], named)
            == if asked[i] in named then [asked[i]] + D.Requested(asked[i + 1..], named) else D.Requested(asked[i + 1..], named)
  {
    assert asked[i..][1..] == asked[i + 1..];
  }

  lemma CancelStep(db: D.Db, g: GroupName, rest: seq<GroupName>, mid: MsgId, sig: Sig)
    requires g in db.groups && forall h | h in [g] + rest :: h in db.groups
    ensures var (d, stop) := D.CancelInGroup(db, g, mid, sig, D.AsWritten);
            && d.groups.Keys == db.groups.Keys
            && (forall h | h in rest :: h in d.groups)
            && D.CancelGroups(db, [g] + rest, mid, sig, D.AsWritten)
               == if stop then (d, D.Error) else D.CancelGroups(d, rest, mid, sig, D.AsWritten)
  {
    assert ([g] + rest)[1..] == rest;
    forall h | h in rest ensures h in db.groups {
      assert h in [g] + rest;
    }
  }

  class ArticleStore {
    const me: TorId
    var rows: map<MsgId, D.Row>
    var lastId: int
    var files: map<Sig, D.Article>
    var groups: map<GroupName, D.Group>
    var lastGroup: int
    var peers: seq<TorId>
    var config: map<string, D.Setting>

    function View(): D.Db
      reads this
    {
      D.Db(me, rows, lastId, files, groups, lastGroup, peers, config)
    }

    constructor (me: TorId)
      ensures this.me == me && View() == D.Db(me, map[], 0, map[], map[], 0, [], map[])
    {
      this.me := me;
      rows, lastId, files := map[], 0, map[];
      groups, lastGroup, peers, config := map[], 0, [], map[];
    }

    /** openCreateDB after the first start: bump the numbers to the clock. */
    method Reopen(now: int) returns (ok: bool)
      modifies this
      ensures ok == D.Reopen(old(View()), now).Some?
      ensures View() == if ok then D.Reopen(old(View()), now).value else old(View())
    {
      if D.BUMP in rows || D.BUMP in groups
         || (exists m | m in rows :: rows[m].id == now) || (exists g | g in groups :: groups[g].number == now) {
        return false;
      }
      lastId := D.Max(lastId, now);
      lastGroup := D.Max(lastGroup, now);
      ok := true;
    }

    method StoreArticle(a: D.Article) returns (r: Reply)
      modifies this
      ensures (View(), r) == D.StoreArticle(old(View()), a)
    {
      if a.messageId in rows {
        return D.Error;
      }
      lastId := lastId + 1;
      rows := rows[a.messageId := D.Row(lastId, a.signature, 0)];
      files := files[a.signature := a];
      r := D.Number(lastId);
    }

    method AddArticleToGroup(g: GroupName, mid: MsgId, id: int) returns (r: Reply)
      requires g in groups
      modifies this
      ensures (View(), r) == D.AddArticleToGroup(old(View()), g, mid, id)
    {
      if mid in groups[g].index {
        return D.Error;
      }
      groups := groups[g := groups[g].(index := groups[g].index[mid := id])];
      if mid !in rows {
        return D.Error;
      }
      rows := rows[mid := rows[mid].(refs := rows[mid].refs + 1)];
      r := D.Done;
    }

    method GetArticleById(mid: MsgId) returns (r: Reply)
      ensures r == D.GetArticleById(View(), mid)
    {
      if mid in rows && rows[mid].signature in files {
        r := D.Found(rows[mid].id, files[rows[mid].signature]);
      } else {
        r := D.Error;
      }
    }

    /** One turn of cancelMessage's loop, the delete statement as written. */
    method CancelInGroup(grp: GroupName, mid: MsgId, sig: Sig) returns (stop: bool)
      requires grp in groups
      modifies this
      ensures (View(), stop) == D.CancelInGroup(old(View()), grp, mid, sig, D.AsWritten)
    {
      groups := groups[grp := groups[grp].(index := groups[grp].index - {mid})];
      if mid !in rows {
        return true;
      }
      rows := rows[mid := rows[mid].(refs := rows[mid].refs - 1)];
      if rows[mid].refs == 0 {
        if sig in files {
          files := files - {sig};
        }
        return true;
      }
      stop := false;
    }

    /** cancelMessage's loop over the requested groups. */
    method CancelInGroups(asked: seq<GroupName>, named: seq<GroupName>, mid: MsgId, sig: Sig) returns (r: Reply)
      requires forall g | g in D.Requested(asked, named) :: g in View().groups
      modifies this
      ensures (View(), r) == D.CancelGroups(old(View()), D.Requested(asked, named), mid, sig, D.AsWritten)
    {
      ghost var all := D.CancelGroups(View(), D.Requested(asked, named), mid, sig, D.AsWritten);
      assert asked[0..] == asked;
      for i := 0 to |asked|
        invariant forall g | g in D.Requested(asked[i..], named) :: g in View().groups
        invariant D.CancelGroups(View(), D.Requested(asked[i..], named), mid, sig, D.AsWritten) == all
      {
        RequestedStep(asked, i, named);
        if asked[i] in named {
          ghost var before, rest := View(), D.Requested(asked[i + 1..], named);
          CancelStep(before, asked[i], rest, mid, sig);
          var stop := CancelInGroup(asked[i], mid, sig);
          assert D.CancelInGroup(before, asked[i], mid, sig, D.AsWritten) == (View(), stop);
          if stop {
            return D.Error;
          }
        }
      }
      r := D.Done;
    }

    method CancelMessage(from: TorId, mid: MsgId, newsgroups: string) returns (r: Reply)
      requires D.Runs(View(), D.CmdCancelMessage(from, mid, newsgroups))
      modifies this
      ensures (View(), r) == D.CancelMessage(old(View()), from, mid, newsgroups, D.AsWritten)
    {
      var found := GetArticleById(mid);
      if !found.Found? || found.article.from != from {
        return D.Error;
      }
      r := CancelInGroups(Split(newsgroups, ','), Split(found.article.newsgroups, ','), mid, found.article.signature);
    }

    method GetNextArticle(last: int) returns (r: Reply)
      ensures D.NextReply(View(), last, r)
    {
      if forall m | m in rows :: rows[m].id <= last {
        return D.Error;
      }
      NextRowExists(View(), last);
      var mid :| mid in rows && D.IsNextRow(View(), last, mid);
      r := GetArticleById(mid);
    }

    method GetPerms(torid: TorId, g: GroupName) returns (p: Option<D.Perms>)
      ensures p == D.GetPerms(View(), torid, g)
    {
      var gs := Split(g, '.');
      if gs[0] == torid {
        return Some(D.ALL_PERMS);
      }
      if groups == map[] {
        return None;
      }
      if g !in groups {
        return Some(D.NO_PERMS);
      }
      if torid in groups[g].perms {
        return Some(groups[g].perms[torid]);
      }
      p := if "group" in groups[g].perms then Some(groups[g].perms["group"]) else None;
    }

    method NewGroup(name: GroupName, description: string, card: seq<D.CardEntry>) returns (r: Reply)
      modifies this
      ensures (View(), r) == D.NewGroup(old(View()), name, description, card)
    {
      if name in groups {
        return D.Error;
      }
      lastGroup := lastGroup + 1;
      var perms: map<TorId, D.Perms> := map[];
      for i := 0 to |card|
        invariant perms == D.PermsTable(card[..i])
      {
        assert card[..i + 1][..i] == card[..i];
        perms := perms[card[i].torid := card[i].perms];
      }
      assert card[..|card|] == card;
      var config := map["description" := D.Words(description), "flags" := D.Words("flags")];
      groups := groups[name := D.Group(lastGroup, map[], config, perms)];
      r := D.Done;
    }

    method GetGroup(torid: TorId, g: GroupName) returns (r: Reply)
      ensures D.GroupReply(View(), torid, g, r)
    {
      var p := GetPerms(torid, g);
      if (p.Some? && !p.value.read) || g !in groups {
        return D.Error;
      }
      var index := groups[g].index;
      if index == map[] {
        return D.Summary(0, 0, 0);
      }
      var l := G.LowestOf(index, index.Keys);
      var h := G.HighestOf(index, index.Keys);
      assert exists m :: m in index && forall k | k in index :: index[m] <= index[k];
      assert exists m :: m in index && forall k | k in index :: index[k] <= index[m];
      var low :| low in index && forall k | k in index :: index[low] <= index[k];
      var high :| high in index && forall k | k in index :: index[k] <= index[high];
      r := D.Summary(index[low], index[high], |index|);
    }

    method GetGroupNumber(g: GroupName) returns (r: Reply)
      ensures r == D.GetGroupNumber(View(), g)
    {
      r := if g in groups then D.Number(groups[g].number) else D.Error;
    }

    method GroupConfigSet(g: GroupName, key: string, val: D.Setting) returns (r: Reply)
      requires g in groups
      modifies this`groups
      ensures (View(), r) == D.GroupConfigSet(old(View()), g, key, val)
    {
      groups := groups[g := groups[g].(config := groups[g].config[key := val])];
      r := D.Done;
    }

    method GroupConfigGetInt64(g: GroupName, key: string) returns (r: Reply)
      requires g in groups
      ensures r == D.GroupConfigGetInt64(View(), g, key)
    {
      var c := groups[g].config;
      r := if key in c && c[key].Num? then D.Number(c[key].n) else D.Error;
    }

    method AddPeer(peer: TorId) returns (r: Reply)
      requires peer in peers || D.PeerGroup(me, peer) in groups
      modifies this`groups, this`peers
      ensures (View(), r) == D.AddPeer(old(View()), peer)
    {
      if peer in peers {
        return D.Error;
      }
      var g := D.PeerGroup(me, peer);
      var r0 := GroupConfigSet(g, "ControlMessages", D.Words("true"));
      r0 := GroupConfigSet(g, "Feed", D.Words(peer));
      r0 := GroupConfigSet(g, "LastMessage", D.Num(0));
      assert groups == old(groups)[g := groups[g]];
      peers := peers + [peer];
      r := D.Done;
    }

    method GetArticleBySignature(sig: Sig) returns (r: Reply)
      ensures r == D.GetArticleBySignature(View(), sig)
    {
      r := if sig in files then D.Stored(files[sig]) else D.Error;
    }

    method ConfigSet(key: string, val: D.Setting) returns (r: Reply)
      modifies this`config
      ensures (View(), r) == D.ConfigSet(old(View()), key, val)
    {
      config := config[key := val];
      r := D.Done;
    }

    method ConfigGet(key: string) returns (r: Reply)
      ensures r == D.ConfigGet(View(), key)
    {
      r := if key in config then D.Value(config[key]) else D.Error;
    }

    /** dbServer's switch: each command runs its handler on the state and gets
        that handler's reply. */
    method Dispatch(c: D.Cmd) returns (r: Reply)
      requires RowsOk(View()) && D.Runs(View(), c)
      modifies this
      ensures (View(), r) == D.Apply(old(View()), c)
    {
      match c {
        case CmdStoreArticle(a) => r := StoreArticle(a);
        case CmdAddArticleToGroup(g, mid, id) => r := AddArticleToGroup(g, mid, id);
        case CmdCancelMessage(from, mid, newsgroups) => r := CancelMessage(from, mid, newsgroups);
        case CmdGetArticleById(mid) => r := GetArticleById(mid);
        case CmdGetNextArticle(last) =>
          r := GetNextArticle(last);
          NextReplyUnique(View(), last, r);
        case CmdNewGroup(name, description, card) => r := NewGroup(name, description, card);
        case CmdGetPerms(torid, g) =>
          var p := GetPerms(torid, g);
          r := D.Access(p);
        case CmdGetGroup(torid, g) =>
          r := GetGroup(torid, g);
          GroupReplyUnique(View(), torid, g, r);
        case CmdGetGroupNumber(g) => r := GetGroupNumber(g);
        case CmdGroupConfigSet(g, key, val) => r := GroupConfigSet(g, key, val);
        case CmdGroupConfigGetInt64(g, key) => r := GroupConfigGetInt64(g, key);
        case CmdAddPeer(peer) => r := AddPeer(peer);
        case CmdGetPeerList => r := D.Peers(peers);
        case CmdGetArticleBySignature(sig) => r := GetArticleBySignature(sig);
        case CmdConfigSet(key, val) => r := ConfigSet(key, val);
        case CmdConfigGet(key) => r := ConfigGet(key);
        case CmdConfigGetDeviceKey => r := ConfigGet(D.DEVICE_KEY);
      }
    }
  }

  lemma NextRowExists(db: D.Db, last: int)
    requires exists m | m in db.rows :: db.rows[m].id > last
    ensures exists m :: D.IsNextRow(db, last, m)
  {
    var above := set m | m in db.rows && db.rows[m].id > last;
    var n :| n in db.rows && db.rows[n].id > last;
    assert n in above;
    var m := LeastRow(db, above);
    assert D.IsNextRow(db, last, m);
  }

  lemma {:induction false} LeastRow(db: D.Db, ms: set<MsgId>) returns (m: MsgId)
    requires ms != {} && ms <= db.rows.Keys
    ensures m in ms && forall k | k in ms :: db.rows[m].id <= db.rows[k].id
    decreases |ms|
  {
    m :| m in ms;
    if ms != {m} {
      var rest := ms - {m};
      assert rest != {};
      var k := LeastRow(db, rest);
      if db.rows[k].id < db.rows[m].id {
        m := k;
      }
    }
  }

  /** With distinct row numbers the reply to GetNextArticle is determined. */
  lemma NextReplyUnique(db: D.Db, last: int, r: Reply)
    requires RowsOk(db) && D.NextReply(db, last, r)
    ensures r == D.GetNextArticle(db, last)
  {
    forall a, b | D.IsNextRow(db, last, a) && D.IsNextRow(db, last, b) ensures a == b {
      assert db.rows[a].id == db.rows[b].id;
    }
    if exists m :: D.IsNextRow(db, last, m) {
      var m :| D.IsNextRow(db, last, m);
      assert !(forall k | k in db.rows :: db.rows[k].id <= last);
    }
  }

  lemma GroupReplyUnique(db: D.Db, torid: TorId, g: GroupName, r: Reply)
    requires D.GroupReply(db, torid, g, r)
    ensures r == D.GetGroup(db, torid, g)
  {
  }
}
