/** What callers of the database server read back: the replies to later commands, over
    whole runs, in terms of what earlier commands were given. */
module Replies {
  import opened Options
  import opened Sets
  import opened Text
  import opened ArticleDb
  import opened ArticleRefs
  import opened ArticleRuns
  import opened Permissions

  ghost function ReplyTo(db: Db, c: Cmd): Reply
    requires Runs(db, c)
  {
    Apply(db, c).1
  }

  /** Commands that cannot panic. */
  lemma AlwaysRun(db: Db)
    ensures forall key :: Runs(db, CmdConfigGet(key))
    ensures Runs(db, CmdConfigGetDeviceKey) && Runs(db, CmdGetPeerList)
  {
  }

  // ---- the node's settings --------------------------------------------------

  predicate Writes(op: Op, key: string) {
    op.Do? && op.c.CmdConfigSet? && op.c.key == key
  }

  lemma {:induction false} CancelGroupsSettings(db: Db, gs: seq<GroupName>, mid: MsgId, sig: Sig)
    requires forall g | g in gs :: g in db.groups
    ensures var d := CancelGroups(db, gs, mid, sig, AsWritten).0;
            && d.config == db.config && d.peers == db.peers && d.groups.Keys == db.groups.Keys && d.me == db.me
            && forall g | g in db.groups :: d.groups[g].config == db.groups[g].config
    decreases |gs|
  {
    if gs != [] {
      var (d, stop) := CancelInGroup(db, gs[0], mid, sig, AsWritten);
      if !stop {
        CancelGroupsSettings(d, gs[1..], mid, sig);
      }
    }
  }

  lemma CancelSettings(db: Db, from: TorId, mid: MsgId, newsgroups: string)
    requires Runs(db, CmdCancelMessage(from, mid, newsgroups))
    ensures var d := CancelMessage(db, from, mid, newsgroups, AsWritten).0;
            && d.config == db.config && d.peers == db.peers && d.groups.Keys == db.groups.Keys && d.me == db.me
            && forall g | g in db.groups :: d.groups[g].config == db.groups[g].config
  {
    if GetArticleById(db, mid).Found? {
      var a := GetArticleById(db, mid).article;
      CancelGroupsSettings(db, CancelTargets(db, from, mid, newsgroups), mid, a.signature);
    }
  }

  lemma OpKeepsSetting(db: Db, op: Op, key: string)
    requires Allowed(db, op) && !Writes(op, key)
    ensures var d := Perform(db, op);
            (key in d.config <==> key in db.config) && (key in db.config ==> d.config[key] == db.config[key])
  {
    if op.Do? && op.c.CmdCancelMessage? {
      CancelSettings(db, op.c.from, op.c.mid, op.c.newsgroups);
    }
  }

  lemma {:induction false} RunKeepsSetting(db: Db, ops: seq<Op>, key: string)
    requires IsRun(db, ops) && forall op | op in ops :: !Writes(op, key)
    ensures var d := Final(db, ops);
            (key in d.config <==> key in db.config) && (key in db.config ==> d.config[key] == db.config[key])
    decreases |ops|
  {
    if ops != [] {
      assert ops[0] in ops && forall op | op in ops[1..] :: op in ops;
      OpKeepsSetting(db, ops[0], key);
      RunKeepsSetting(Perform(db, ops[0]), ops[1..], key);
    }
  }

  /** A setting of the node is read back as it was last written, the device key under
      its own command too, and one that was never written is an error. */
  lemma SettingReadBack(db: Db, key: string, val: Setting, ops: seq<Op>)
    requires IsRun(Apply(db, CmdConfigSet(key, val)).0, ops) && forall op | op in ops :: !Writes(op, key)
    ensures var d := Final(Apply(db, CmdConfigSet(key, val)).0, ops);
            ReplyTo(d, CmdConfigGet(key)) == Value(val) && (key == "deviceKey" ==> ReplyTo(d, CmdConfigGetDeviceKey) == Value(val))
  {
    RunKeepsSetting(Apply(db, CmdConfigSet(key, val)).0, ops, key);
  }

  lemma SettingNeverWritten(me: TorId, key: string, ops: seq<Op>)
    requires IsRun(Blank(me), ops) && forall op | op in ops :: !Writes(op, key)
    ensures ReplyTo(Final(Blank(me), ops), CmdConfigGet(key)) == Error
  {
    RunKeepsSetting(Blank(me), ops, key);
  }

  // ---- settings of groups, and peers ----------------------------------------

  /** The operation writes the group's setting; registering a peer writes three of its
      group's. */
  predicate SetsIn(me: TorId, op: Op, g: GroupName, key: string) {
    op.Do? &&
    ( || (op.c.CmdGroupConfigSet? && op.c.g == g && op.c.key == key)
      || (op.c.CmdAddPeer? && me + ".peers." + op.c.peer == g && key in {"LastMessage", "Feed", "ControlMessages"}))
  }

  ghost predicate SameIn(db: Db, d: Db, g: GroupName, key: string)
    requires g in db.groups
  {
    && d.me == db.me && g in d.groups
    && (key in d.groups[g].config <==> key in db.groups[g].config)
    && (key in db.groups[g].config ==> d.groups[g].config[key] == db.groups[g].config[key])
  }

  lemma OpKeepsGroupSetting(db: Db, op: Op, g: GroupName, key: string)
    requires Allowed(db, op) && g in db.groups && !SetsIn(db.me, op, g, key)
    ensures SameIn(db, Perform(db, op), g, key)
  {
    if op.Do? && op.c.CmdCancelMessage? {
      CancelSettings(db, op.c.from, op.c.mid, op.c.newsgroups);
    }
  }

  lemma {:induction false} RunKeepsGroupSetting(db: Db, ops: seq<Op>, g: GroupName, key: string)
    requires IsRun(db, ops) && g in db.groups && forall op | op in ops :: !SetsIn(db.me, op, g, key)
    ensures SameIn(db, Final(db, ops), g, key)
    decreases |ops|
  {
    if ops != [] {
      assert ops[0] in ops && forall op | op in ops[1..] :: op in ops;
      OpKeepsGroupSetting(db, ops[0], g, key);
      RunKeepsGroupSetting(Perform(db, ops[0]), ops[1..], g, key);
    }
  }

  /** A group's number setting is read back as it was last written, a cursor's above
      all. */
  lemma GroupSettingReadBack(db: Db, g: GroupName, key: string, n: int, ops: seq<Op>)
    requires g in db.groups && IsRun(Apply(db, CmdGroupConfigSet(g, key, Num(n))).0, ops)
    requires forall op | op in ops :: !SetsIn(db.me, op, g, key)
    ensures var d := Final(Apply(db, CmdGroupConfigSet(g, key, Num(n))).0, ops);
            g in d.groups && ReplyTo(d, CmdGroupConfigGetInt64(g, key)) == Number(n)
  {
    RunKeepsGroupSetting(Apply(db, CmdGroupConfigSet(g, key, Num(n))).0, ops, g, key);
  }

  lemma OpKeepsPeers(db: Db, op: Op)
    requires Allowed(db, op)
    ensures db.peers <= Perform(db, op).peers
  {
    if op.Do? && op.c.CmdCancelMessage? {
      CancelSettings(db, op.c.from, op.c.mid, op.c.newsgroups);
    }
  }

  lemma {:induction false} RunKeepsPeers(db: Db, ops: seq<Op>)
    requires IsRun(db, ops)
    ensures db.peers <= Final(db, ops).peers
    decreases |ops|
  {
    if ops != [] {
      OpKeepsPeers(db, ops[0]);
      RunKeepsPeers(Perform(db, ops[0]), ops[1..]);
    }
  }

  /** A registered peer is behind the peers that were there, for good, with its settings
      and a cursor at 0 until it is written. */
  lemma PeerReadBack(db: Db, peer: TorId, ops: seq<Op>)
    requires Runs(db, CmdAddPeer(peer)) && ReplyTo(db, CmdAddPeer(peer)) == Done
    requires IsRun(Apply(db, CmdAddPeer(peer)).0, ops)
    ensures peer !in db.peers
    ensures var r := ReplyTo(Final(Apply(db, CmdAddPeer(peer)).0, ops), CmdGetPeerList);
            r.Peers? && db.peers + [peer] <= r.list
    ensures var g, d := db.me + ".peers." + peer, Final(Apply(db, CmdAddPeer(peer)).0, ops);
            (forall op | op in ops :: forall key | key in {"LastMessage", "Feed", "ControlMessages"} :: !SetsIn(db.me, op, g, key)) ==>
              && g in d.groups && ReplyTo(d, CmdGroupConfigGetInt64(g, "LastMessage")) == Number(0)
              && "Feed" in d.groups[g].config && d.groups[g].config["Feed"] == Words(peer)
              && "ControlMessages" in d.groups[g].config && d.groups[g].config["ControlMessages"] == Words("true")
  {
    var e, g := Apply(db, CmdAddPeer(peer)).0, db.me + ".peers." + peer;
    RunKeepsPeers(e, ops);
    assert g in e.groups && e.groups[g].config["LastMessage"] == Num(0) && e.groups[g].config["Feed"] == Words(peer)
           && e.groups[g].config["ControlMessages"] == Words("true");
    if forall op | op in ops :: forall key | key in {"LastMessage", "Feed", "ControlMessages"} :: !SetsIn(db.me, op, g, key) {
      RunKeepsGroupSetting(e, ops, g, "LastMessage");
      RunKeepsGroupSetting(e, ops, g, "Feed");
      RunKeepsGroupSetting(e, ops, g, "ControlMessages");
    }
  }

  /** Each group has a positive number that no other has, for good. */
  lemma GroupNumberReadBack(me: TorId, ops: seq<Op>, g: GroupName)
    requires IsRun(Blank(me), ops)
    ensures var r := ReplyTo(Final(Blank(me), ops), CmdGetGroupNumber(g));
            && (r == Error <==> !Made(ops, g)) && (r != Error ==> r.Number? && r.n > 0)
            && forall h :: ReplyTo(Final(Blank(me), ops), CmdGetGroupNumber(h)) == r && r != Error ==> g == h
  {
    GroupsAreMade(me, ops, g);
    GroupNumbers(Blank(me), ops);
  }

  // ---- articles -------------------------------------------------------------

  predicate Cancels(op: Op, mid: MsgId) {
    op.Do? && op.c.CmdCancelMessage? && op.c.mid == mid
  }

  /** a is stored under number id. */
  ghost predicate Has(db: Db, a: Article, id: int) {
    && a.messageId in db.rows && db.rows[a.messageId].id == id && db.rows[a.messageId].signature == a.signature
    && a.signature in db.files && db.files[a.signature] == a
  }

  lemma CancelKeepsOthers(db: Db, from: TorId, mid: MsgId, newsgroups: string, a: Article, id: int)
    requires RowsOk(db) && FilesOk(db) && Runs(db, CmdCancelMessage(from, mid, newsgroups)) && a.messageId != mid && Has(db, a, id)
    ensures Has(CancelMessage(db, from, mid, newsgroups, AsWritten).0, a, id)
  {
    CancelMessageEffect(db, from, mid, newsgroups);
  }

  lemma OpKeepsArticle(db: Db, op: Op, a: Article, id: int)
    requires Valid(db) && Allowed(db, op) && Proper(db, op) && !Cancels(op, a.messageId) && Has(db, a, id)
    ensures Has(Perform(db, op), a, id)
  {
    if op.Do? && op.c.CmdCancelMessage? {
      CancelKeepsOthers(db, op.c.from, op.c.mid, op.c.newsgroups, a, id);
    } else if !Files(op) {
      OtherOpsKeepFiling(db, op);
    }
  }

  lemma {:induction false} RunKeepsArticle(db: Db, ops: seq<Op>, a: Article, id: int)
    requires Valid(db) && IsRun(db, ops) && ProperRun(db, ops) && (forall op | op in ops :: !Cancels(op, a.messageId)) && Has(db, a, id)
    ensures Has(Final(db, ops), a, id) && RowsOk(Final(db, ops))
    decreases |ops|
  {
    if ops != [] {
      assert ops[0] in ops && forall op | op in ops[1..] :: op in ops;
      OpKeepsArticle(db, ops[0], a, id);
      OpValid(db, ops[0]);
      RunKeepsArticle(Perform(db, ops[0]), ops[1..], a, id);
    }
  }

  lemma NextIsFound(db: Db, a: Article, id: int)
    requires RowsOk(db) && Has(db, a, id)
    ensures GetNextArticle(db, id - 1) == Found(id, a)
  {
    var last := id - 1;
    assert IsNextRow(db, last, a.messageId);
    forall m | IsNextRow(db, last, m) ensures m == a.messageId {
      assert db.rows[m].id == id;
    }
  }

  /** The article's replies. */
  ghost predicate Answered(db: Db, a: Article, id: int) {
    && ReplyTo(db, CmdGetArticleById(a.messageId)) == Found(id, a)
    && ReplyTo(db, CmdGetArticleBySignature(a.signature)) == Stored(a)
    && ReplyTo(db, CmdGetNextArticle(id - 1)) == Found(id, a)
    && (forall b: Article | b.messageId == a.messageId :: ReplyTo(db, CmdStoreArticle(b)) == Error)
  }

  lemma HasAnswered(db: Db, a: Article, id: int)
    requires RowsOk(db) && Has(db, a, id)
    ensures Answered(db, a, id)
  {
    NextIsFound(db, a, id);
  }

  lemma StoredHas(db: Db, a: Article)
    requires Valid(db) && FreshSignature(db, a) && ReplyTo(db, CmdStoreArticle(a)).Number?
    ensures var e := Apply(db, CmdStoreArticle(a)).0;
            Valid(e) && Has(e, a, ReplyTo(db, CmdStoreArticle(a)).n)
  {
    StoreArticleValid(db, a);
  }

  /** A stored article is read back whole, by its Message-Id, by its signature, and as the
      next one after the number below its own, until it is cancelled; storing it again
      is an error. */
  lemma ArticleReadBack(db: Db, a: Article, ops: seq<Op>)
    requires Valid(db) && FreshSignature(db, a) && ReplyTo(db, CmdStoreArticle(a)).Number?
    requires IsRun(Apply(db, CmdStoreArticle(a)).0, ops) && ProperRun(Apply(db, CmdStoreArticle(a)).0, ops)
    requires forall op | op in ops :: !Cancels(op, a.messageId)
    ensures Answered(Final(Apply(db, CmdStoreArticle(a)).0, ops), a, ReplyTo(db, CmdStoreArticle(a)).n)
  {
    var e, id := Apply(db, CmdStoreArticle(a)).0, ReplyTo(db, CmdStoreArticle(a)).n;
    StoredHas(db, a);
    RunKeepsArticle(e, ops, a, id);
    HasAnswered(Final(e, ops), a, id);
  }

  lemma {:induction false} RequestedExactly(asked: seq<GroupName>, named: seq<GroupName>)
    ensures forall g :: g in Requested(asked, named) <==> g in asked && g in named
    ensures Distinct(asked) ==> Distinct(Requested(asked, named))
    decreases |asked|
  {
    if asked != [] {
      var rest := Requested(asked[1..], named);
      RequestedExactly(asked[1..], named);
      assert asked == [asked[0]] + asked[1..];
      DistinctCons(asked[0], asked[1..]);
      DistinctCons(asked[0], rest);
      assert Requested(asked, named) == if asked[0] in named then [asked[0]] + rest else rest;
    }
  }

  /** The groups that both headers name. */
  function Both(asked: string, named: string): set<GroupName> {
    set g | g in Split(asked, ',') && g in Split(named, ',')
  }

  lemma TargetsFair(db: Db, mid: MsgId, gs: seq<GroupName>)
    requires Valid(db) && mid in db.rows && Distinct(gs) && forall g | g in gs :: g in Holders(db, mid)
    ensures Visited(gs, db.rows[mid].refs) == gs
  {
    assert RefsExact(db, mid);
    NamesSize(gs);
    SubsetBound(Names(gs), Holders(db, mid));
    if db.rows[mid].refs == |gs| {
      assert gs[..|gs|] == gs;
    }
  }

  /** A cancel with the article's From takes it out of the groups that both its own
      header and the article's name, and out of no other, and the file goes with the
      last of its groups; one with another From is an error and changes nothing. */
  lemma CancelTakesOut(db: Db, from: TorId, newsgroups: string, a: Article, id: int)
    requires Valid(db) && Has(db, a, id) && Runs(db, CmdCancelMessage(from, a.messageId, newsgroups))
    requires Distinct(Split(newsgroups, ',')) && Both(newsgroups, a.newsgroups) <= Holders(db, a.messageId)
    ensures var (d, r) := Apply(db, CmdCancelMessage(from, a.messageId, newsgroups));
            && (from != a.from ==> d == db && r == Error)
            && (from == a.from ==>
                  && Holders(d, a.messageId) == Holders(db, a.messageId) - Both(newsgroups, a.newsgroups)
                  && (HasFile(d, a.messageId) <==> Holders(d, a.messageId) != {} || Holders(db, a.messageId) == {}))
            && (forall m | m != a.messageId :: Holders(d, m) == Holders(db, m) && (HasFile(d, m) <==> HasFile(db, m)))
  {
    if from == a.from {
      CancelByFrom(db, newsgroups, a, id);
    }
  }

  lemma CancelByFrom(db: Db, newsgroups: string, a: Article, id: int)
    requires Valid(db) && Has(db, a, id) && Runs(db, CmdCancelMessage(a.from, a.messageId, newsgroups))
    requires Distinct(Split(newsgroups, ',')) && Both(newsgroups, a.newsgroups) <= Holders(db, a.messageId)
    ensures var d := CancelMessage(db, a.from, a.messageId, newsgroups, AsWritten).0;
            && Holders(d, a.messageId) == Holders(db, a.messageId) - Both(newsgroups, a.newsgroups)
            && FairOutcome(db, d, a.messageId)
  {
    var gs := Requested(Split(newsgroups, ','), Split(a.newsgroups, ','));
    RequestedExactly(Split(newsgroups, ','), Split(a.newsgroups, ','));
    assert CancelTargets(db, a.from, a.messageId, newsgroups) == gs && Names(gs) == Both(newsgroups, a.newsgroups);
    forall g | g in gs ensures g in Holders(db, a.messageId) {
      assert g in Both(newsgroups, a.newsgroups);
    }
    TargetsFair(db, a.messageId, gs);
    CancelMessageValid(db, a.from, a.messageId, newsgroups);
    CancelledHolders(db, newsgroups, a, gs);
  }

  lemma CancelledHolders(db: Db, newsgroups: string, a: Article, gs: seq<GroupName>)
    requires Valid(db) && HasFile(db, a.messageId) && Runs(db, CmdCancelMessage(a.from, a.messageId, newsgroups))
    requires CancelTargets(db, a.from, a.messageId, newsgroups) == gs && Visited(gs, db.rows[a.messageId].refs) == gs
    ensures Holders(CancelMessage(db, a.from, a.messageId, newsgroups, AsWritten).0, a.messageId) == Holders(db, a.messageId) - Names(gs)
  {
    var d := CancelMessage(db, a.from, a.messageId, newsgroups, AsWritten).0;
    CancelMessageEffect(db, a.from, a.messageId, newsgroups);
    if gs != [] {
      CancelLeavesHolders(db, d, a.messageId, gs, Gone(gs, db.rows[a.messageId].refs));
    }
  }

  /** An article that has no row is indexed all the same, and the caller gets an error. */
  lemma IndexedWithoutRow(db: Db, g: GroupName, mid: MsgId, id: int)
    requires g in db.groups && mid !in db.rows && mid !in db.groups[g].index
    ensures var (d, r) := Apply(db, CmdAddArticleToGroup(g, mid, id));
            r == Error && d.rows == db.rows && mid in d.groups[g].index && d.groups[g].index[mid] == id
  {
  }

  // ---- restarts -------------------------------------------------------------

  /** A start fails if and only if the clock hits a number in use or something bears the
      name of the row that is inserted and deleted; after it the next article and the
      next group get numbers above the clock and above all that were given before. */
  lemma StartedAgain(db: Db, now: int, a: Article, g: GroupName)
    requires a.messageId !in db.rows && g !in db.groups
    ensures Reopen(db, now).None? <==>
              "DELETEME" in db.rows || "DELETEME" in db.groups
              || (exists m | m in db.rows :: db.rows[m].id == now) || (exists h | h in db.groups :: db.groups[h].number == now)
    ensures Reopen(db, now).Some? ==>
              var e := Reopen(db, now).value;
              && ReplyTo(e, CmdStoreArticle(a)).Number? && ReplyTo(e, CmdStoreArticle(a)).n > now
              && ReplyTo(e, CmdStoreArticle(a)).n > db.lastId
              && var n := ReplyTo(Apply(e, CmdNewGroup(g, "", [])).0, CmdGetGroupNumber(g));
                 n.Number? && n.n > now && n.n > db.lastGroup
  {
  }
}
