/** What a card lets whom do, over whole runs of the article database: the answers of
    GetPerms and GetGroup traced back to the newgroup that made the group. */
module Permissions {
  import opened Options
  import opened Text
  import opened ArticleDb
  import opened ArticleRuns
  import opened ArticleGroups

  // ---- groups over runs -----------------------------------------------------

  predicate Creates(op: Op, g: GroupName) {
    op.Do? && op.c.CmdNewGroup? && op.c.name == g
  }

  /** ops[k] is the first newgroup for g. */
  ghost predicate MadeBy(ops: seq<Op>, g: GroupName, k: nat) {
    k < |ops| && Creates(ops[k], g) && forall j | 0 <= j < k :: !Creates(ops[j], g)
  }

  ghost predicate Made(ops: seq<Op>, g: GroupName) {
    exists k: nat :: MadeBy(ops, g, k)
  }

  /** Groups stay, with their numbers and permission tables. */
  ghost predicate TablesStay(db: Db, d: Db) {
    forall g | g in db.groups ::
      g in d.groups && d.groups[g].perms == db.groups[g].perms && d.groups[g].number == db.groups[g].number
  }

  lemma {:induction false} CancelGroupsTables(db: Db, gs: seq<GroupName>, mid: MsgId, sig: Sig)
    requires forall g | g in gs :: g in db.groups
    ensures var d := CancelGroups(db, gs, mid, sig, AsWritten).0;
            TablesStay(db, d) && d.groups.Keys == db.groups.Keys && d.lastGroup == db.lastGroup
    decreases |gs|
  {
    if gs != [] {
      var (d, stop) := CancelInGroup(db, gs[0], mid, sig, AsWritten);
      assert TablesStay(db, d) && d.groups.Keys == db.groups.Keys;
      if !stop {
        CancelGroupsTables(d, gs[1..], mid, sig);
      }
    }
  }

  lemma CancelTables(db: Db, from: TorId, mid: MsgId, newsgroups: string)
    requires Runs(db, CmdCancelMessage(from, mid, newsgroups))
    ensures var d := CancelMessage(db, from, mid, newsgroups, AsWritten).0;
            TablesStay(db, d) && d.groups.Keys == db.groups.Keys && d.lastGroup == db.lastGroup
  {
    if GetArticleById(db, mid).Found? {
      var a := GetArticleById(db, mid).article;
      CancelGroupsTables(db, CancelTargets(db, from, mid, newsgroups), mid, a.signature);
    }
  }

  /** Settings and index entries are no part of the tables. */
  lemma PlainTables(db: Db, op: Op)
    requires Allowed(db, op) && op.Do? && (op.c.CmdAddArticleToGroup? || op.c.CmdGroupConfigSet? || op.c.CmdAddPeer?)
    ensures var d := Perform(db, op);
            TablesStay(db, d) && d.groups.Keys == db.groups.Keys && d.lastGroup == db.lastGroup
  {
    if op.c.CmdAddArticleToGroup? {
      AddTables(db, op.c.g, op.c.mid, op.c.id);
    } else if op.c.CmdAddPeer? {
      AddPeerTables(db, op.c.peer);
    }
  }

  lemma AddTables(db: Db, g: GroupName, mid: MsgId, id: int)
    requires g in db.groups
    ensures var d := AddArticleToGroup(db, g, mid, id).0;
            TablesStay(db, d) && d.groups.Keys == db.groups.Keys && d.lastGroup == db.lastGroup
  {
  }

  lemma AddPeerTables(db: Db, peer: TorId)
    requires Runs(db, CmdAddPeer(peer))
    ensures var d := AddPeer(db, peer).0;
            TablesStay(db, d) && d.groups.Keys == db.groups.Keys && d.lastGroup == db.lastGroup
  {
  }

  lemma NewGroupTables(db: Db, op: Op)
    requires Allowed(db, op) && op.Do? && op.c.CmdNewGroup?
    ensures var d := Perform(db, op);
            && TablesStay(db, d) && db.lastGroup <= d.lastGroup
            && forall g | g in d.groups && g !in db.groups :: Creates(op, g) && d.groups[g].number == db.lastGroup + 1 == d.lastGroup
  {
  }

  lemma OpTables(db: Db, op: Op)
    requires Allowed(db, op)
    ensures var d := Perform(db, op);
            && TablesStay(db, d) && db.lastGroup <= d.lastGroup
            && forall g | g in d.groups && g !in db.groups :: Creates(op, g) && d.groups[g].number == db.lastGroup + 1 == d.lastGroup
  {
    if op.Do? && op.c.CmdCancelMessage? {
      CancelTables(db, op.c.from, op.c.mid, op.c.newsgroups);
    } else if op.Do? && op.c.CmdNewGroup? {
      NewGroupTables(db, op);
    } else if op.Do? && (op.c.CmdAddArticleToGroup? || op.c.CmdGroupConfigSet? || op.c.CmdAddPeer?) {
      PlainTables(db, op);
    } else {
      assert Perform(db, op).groups == db.groups;
    }
  }

  lemma {:induction false} RunTables(db: Db, ops: seq<Op>)
    requires IsRun(db, ops)
    ensures TablesStay(db, Final(db, ops))
    decreases |ops|
  {
    if ops != [] {
      OpTables(db, ops[0]);
      RunTables(Perform(db, ops[0]), ops[1..]);
    }
  }

  lemma {:induction false} RunMakes(db: Db, ops: seq<Op>, g: GroupName, k: nat)
    requires IsRun(db, ops) && g !in db.groups && MadeBy(ops, g, k)
    ensures g in Final(db, ops).groups && Final(db, ops).groups[g].perms == PermsTable(ops[k].c.card)
    decreases |ops|
  {
    var d := Perform(db, ops[0]);
    if k == 0 {
      RunTables(d, ops[1..]);
    } else {
      OpTables(db, ops[0]);
      assert ops[1..][k - 1] == ops[k];
      RunMakes(d, ops[1..], g, k - 1);
    }
  }

  lemma {:induction false} RunMakesNot(db: Db, ops: seq<Op>, g: GroupName)
    requires IsRun(db, ops) && g !in db.groups && forall j | 0 <= j < |ops| :: !Creates(ops[j], g)
    ensures g !in Final(db, ops).groups
    decreases |ops|
  {
    if ops != [] {
      OpTables(db, ops[0]);
      RunMakesNot(Perform(db, ops[0]), ops[1..], g);
    }
  }

  lemma {:induction false} FirstCreation(ops: seq<Op>, g: GroupName, n: nat) returns (k: nat)
    requires n < |ops| && Creates(ops[n], g)
    ensures MadeBy(ops, g, k)
    decreases n
  {
    if j :| 0 <= j < n && Creates(ops[j], g) {
      k := FirstCreation(ops, g, j);
    } else {
      k := n;
    }
  }

  /** The groups there are, are those some newgroup was for. */
  lemma GroupsAreMade(me: TorId, ops: seq<Op>, g: GroupName)
    requires IsRun(Blank(me), ops)
    ensures g in Final(Blank(me), ops).groups <==> Made(ops, g)
  {
    if Made(ops, g) {
      var k: nat :| MadeBy(ops, g, k);
      RunMakes(Blank(me), ops, g, k);
    } else {
      if j :| 0 <= j < |ops| && Creates(ops[j], g) {
        var k := FirstCreation(ops, g, j);
      }
      RunMakesNot(Blank(me), ops, g);
    }
  }

  /** Numbers of groups are positive and distinct. */
  ghost predicate GroupNumbersOk(db: Db) {
    && 0 <= db.lastGroup && (forall g | g in db.groups :: 0 < db.groups[g].number <= db.lastGroup)
    && (forall g, h | g in db.groups && h in db.groups && db.groups[g].number == db.groups[h].number :: g == h)
  }

  lemma OpNumbers(db: Db, op: Op)
    requires GroupNumbersOk(db) && Allowed(db, op)
    ensures GroupNumbersOk(Perform(db, op))
  {
    OpTables(db, op);
    NumbersStay(db, Perform(db, op));
  }

  lemma NumbersStay(db: Db, d: Db)
    requires GroupNumbersOk(db) && TablesStay(db, d) && db.lastGroup <= d.lastGroup
    requires forall g | g in d.groups && g !in db.groups :: d.groups[g].number == db.lastGroup + 1 == d.lastGroup
    requires forall g, h | g in d.groups && g !in db.groups && h in d.groups && h !in db.groups :: g == h
    ensures GroupNumbersOk(d)
  {
    forall g, h | g in d.groups && h in d.groups && d.groups[g].number == d.groups[h].number ensures g == h {
      assert g in db.groups ==> d.groups[g].number == db.groups[g].number <= db.lastGroup;
      assert h in db.groups ==> d.groups[h].number == db.groups[h].number <= db.lastGroup;
    }
  }

  /** Over every run each group has a positive number of its own. */
  lemma {:induction false} GroupNumbers(db: Db, ops: seq<Op>)
    requires GroupNumbersOk(db) && IsRun(db, ops)
    ensures GroupNumbersOk(Final(db, ops))
    decreases |ops|
  {
    if ops != [] {
      OpNumbers(db, ops[0]);
      GroupNumbers(Perform(db, ops[0]), ops[1..]);
    }
  }

  // ---- who may do what ------------------------------------------------------

  /** The card's entry e speaks for id: its last one, or the last one for `group`
      when there is none of its own. */
  ghost predicate Decides(card: seq<CardEntry>, id: TorId, e: nat) {
    LastEntry(card, id, e) || (!Listed(card, id) && LastEntry(card, "group", e))
  }

  /** id owns g, or the card that made g lets it read. */
  ghost predicate Reads(ops: seq<Op>, g: GroupName, id: TorId) {
    || id == Split(g, '.')[0]
    || (exists k: nat, e: nat :: MadeBy(ops, g, k) && Decides(ops[k].c.card, id, e) && ops[k].c.card[e].perms.read)
  }

  /** There is g, and id owns it or no entry speaks for it that keeps it from reading. */
  ghost predicate Sees(ops: seq<Op>, g: GroupName, id: TorId) {
    && Made(ops, g)
    && (id == Split(g, '.')[0]
        || forall k: nat, e: nat | MadeBy(ops, g, k) && Decides(ops[k].c.card, id, e) :: ops[k].c.card[e].perms.read)
  }

  /** There is g, and id owns it or no entry speaks for it that keeps it from posting. */
  ghost predicate Posts(ops: seq<Op>, g: GroupName, id: TorId) {
    && Made(ops, g)
    && (id == Split(g, '.')[0]
        || forall k: nat, e: nat | MadeBy(ops, g, k) && Decides(ops[k].c.card, id, e) :: ops[k].c.card[e].perms.post)
  }

  lemma OneDecides(card: seq<CardEntry>, id: TorId, e: nat, f: nat)
    requires Decides(card, id, e) && Decides(card, id, f)
    ensures e == f
  {
  }

  lemma MadeOnce(ops: seq<Op>, g: GroupName, j: nat, k: nat)
    requires MadeBy(ops, g, j) && MadeBy(ops, g, k)
    ensures j == k
  {
  }

  lemma TableDecides(card: seq<CardEntry>, id: TorId)
    ensures var t := PermsTable(card);
            && (forall e: nat | Decides(card, id, e) ::
                  if id in t then t[id] == card[e].perms else "group" in t && t["group"] == card[e].perms)
            && ((exists e: nat :: Decides(card, id, e)) <==> id in t || "group" in t)
  {
    PermsTableIsLast(card, id);
    PermsTableIsLast(card, "group");
    if Listed(card, id) {
      var e: nat :| LastEntry(card, id, e);
      assert Decides(card, id, e);
    } else if Listed(card, "group") {
      var e: nat :| LastEntry(card, "group", e);
      assert Decides(card, id, e);
    }
  }

  /** What the server answers to GetPerms over every run: all rights to the owner, to others what the
      entry says that decides, no answer where none does, no rights on a group that
      was never made, and no answer while no group was. */
  lemma AnswersByCard(me: TorId, ops: seq<Op>, g: GroupName, id: TorId)
    requires IsRun(Blank(me), ops)
    ensures var p := GetPerms(Final(Blank(me), ops), id, g);
            Apply(Final(Blank(me), ops), CmdGetPerms(id, g)).1 == Access(p) &&
            if id == Split(g, '.')[0] then p == Some(Perms(true, true, true, true, true))
            else if !Made(ops, g) then p == if exists h :: Made(ops, h) then Some(Perms(false, false, false, false, false)) else None
            else forall k: nat | MadeBy(ops, g, k) ::
              && (forall e: nat | Decides(ops[k].c.card, id, e) :: p == Some(ops[k].c.card[e].perms))
              && ((forall e: nat :: !Decides(ops[k].c.card, id, e)) ==> p == None)
  {
    var d := Final(Blank(me), ops);
    forall h ensures h in d.groups <==> Made(ops, h) {
      GroupsAreMade(me, ops, h);
    }
    forall k: nat | MadeBy(ops, g, k) ensures d.groups[g].perms == PermsTable(ops[k].c.card) {
      RunMakes(Blank(me), ops, g, k);
      TableDecides(ops[k].c.card, id);
    }
    if !Made(ops, g) {
      if h :| Made(ops, h) {
        assert h in d.groups;
      } else {
        assert d.groups == map[];
      }
    } else {
      var k: nat :| MadeBy(ops, g, k);
      TableDecides(ops[k].c.card, id);
    }
  }

  lemma ReadsExactly(me: TorId, ops: seq<Op>, g: GroupName, id: TorId)
    requires IsRun(Blank(me), ops)
    ensures var p := GetPerms(Final(Blank(me), ops), id, g);
            p.Some? && p.value.read <==> Reads(ops, g, id)
  {
    AnswersByCard(me, ops, g, id);
  }

  lemma PostsExactly(me: TorId, ops: seq<Op>, g: GroupName, id: TorId)
    requires IsRun(Blank(me), ops)
    ensures var d := Final(Blank(me), ops);
            var p := GetPerms(d, id, g);
            g in d.groups && (p.None? || p.value.post) <==> Posts(ops, g, id)
  {
    AnswersByCard(me, ops, g, id);
    GroupsAreMade(me, ops, g);
  }

  /** Over every run GetGroup gives a summary of exactly the groups that there are and
      that no entry keeps the session from reading. */
  lemma SummaryByCard(me: TorId, ops: seq<Op>, g: GroupName, id: TorId)
    requires IsRun(Blank(me), ops)
    ensures var d := Final(Blank(me), ops);
            var r := Apply(d, CmdGetGroup(id, g)).1;
            && (r.Summary? <==> Sees(ops, g, id)) && (!r.Summary? ==> r == Error)
            && (r.Summary? ==> g in d.groups && IsLow(d.groups[g].index, r.low) && IsHigh(d.groups[g].index, r.high)
                               && r.count == |d.groups[g].index|)
  {
    var d := Final(Blank(me), ops);
    if g in d.groups && (GetPerms(d, id, g).None? || GetPerms(d, id, g).value.read) {
      SummaryExists(d, id, g);
    }
    AnswersByCard(me, ops, g, id);
    GroupsAreMade(me, ops, g);
  }
}
