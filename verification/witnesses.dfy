/** Runs from an empty store on which it does not do what it is for. */
module Witnesses {
  import opened Options
  import opened Sets
  import opened Text
  import opened ArticleDb
  import opened ArticleRefs
  import opened ArticleRuns

  /** Two ordinary groups, such as a.news and a.talk. */
  predicate TwoNames(g: GroupName, h: GroupName) {
    g != h && ',' !in g && ',' !in h && Ordinary(g) && Ordinary(h)
  }

  lemma NamesExist()
    ensures TwoNames("a.b", "a.c")
  {
    assert "a.b" == "a" + ['.'] + "b" && "a.c" == "a" + ['.'] + "c";
    SplitPrefix("a", "b", '.');
    SplitPrefix("a", "c", '.');
    SplitPlain("b", '.');
    SplitPlain("c", '.');
    assert "b"[0] != "peers"[0] && "c"[0] != "peers"[0];
    assert "a.b"[2] != "a.c"[2];
  }

  function Plain(mid: MsgId, from: TorId, newsgroups: string): Article {
    Article(mid, mid, from, newsgroups, "", "", [], [])
  }

  // ---- one operation at a time ----------------------------------------------

  lemma {:induction false} OneMore(db: Db, ops: seq<Op>, op: Op)
    requires IsRun(db, ops) && ProperRun(db, ops) && Allowed(Final(db, ops), op) && Proper(Final(db, ops), op)
    ensures IsRun(db, ops + [op]) && ProperRun(db, ops + [op])
    ensures Final(db, ops + [op]) == Perform(Final(db, ops), op)
    decreases |ops|
  {
    if ops == [] {
      assert ops + [op] == [op] && [op][1..] == [];
    } else {
      OneMore(Perform(db, ops[0]), ops[1..], op);
      assert (ops + [op])[1..] == ops[1..] + [op];
    }
  }

  /** A run from an empty store that leads to db. */
  ghost predicate Leads(me: TorId, ops: seq<Op>, db: Db) {
    IsRun(Blank(me), ops) && ProperRun(Blank(me), ops) && Final(Blank(me), ops) == db
  }

  lemma Then(me: TorId, ops: seq<Op>, db: Db, op: Op)
    requires Leads(me, ops, db) && Allowed(db, op) && Proper(db, op)
    ensures Leads(me, ops + [op], Perform(db, op))
  {
    OneMore(Blank(me), ops, op);
  }

  /** The rows and indexes of a store with the two groups. */
  ghost predicate Scene(db: Db, g: GroupName, h: GroupName, rows: map<MsgId, Row>, x: map<MsgId, int>, y: map<MsgId, int>) {
    && db.groups.Keys == {g, h} && db.groups[g].index == x && db.groups[h].index == y
    && db.rows == rows && db.lastId == |rows|
    && (forall m | m in rows :: rows[m].signature == m)
  }

  lemma TwoGroups(me: TorId, g: GroupName, h: GroupName) returns (ops: seq<Op>, db: Db)
    requires g != h
    ensures Leads(me, ops, db) && Scene(db, g, h, map[], map[], map[]) && db.files == map[]
  {
    ops, db := [], Blank(me);
    Then(me, ops, db, Do(CmdNewGroup(g, "", [])));
    ops, db := ops + [Do(CmdNewGroup(g, "", []))], NewGroup(db, g, "", []).0;
    Then(me, ops, db, Do(CmdNewGroup(h, "", [])));
    ops, db := ops + [Do(CmdNewGroup(h, "", []))], NewGroup(db, h, "", []).0;
  }

  lemma Stored(me: TorId, ops: seq<Op>, db: Db, a: Article, g: GroupName, h: GroupName,
               rows: map<MsgId, Row>, x: map<MsgId, int>, y: map<MsgId, int>) returns (ops': seq<Op>, db': Db)
    requires Leads(me, ops, db) && Scene(db, g, h, rows, x, y) && a.messageId !in rows && a.signature == a.messageId
    ensures Leads(me, ops', db') && Scene(db', g, h, rows[a.messageId := Row(|rows| + 1, a.messageId, 0)], x, y)
    ensures db'.files == db.files[a.messageId := a]
  {
    Then(me, ops, db, Do(CmdStoreArticle(a)));
    ops', db' := ops + [Do(CmdStoreArticle(a))], StoreArticle(db, a).0;
    assert |rows[a.messageId := Row(|rows| + 1, a.messageId, 0)]| == |rows| + 1;
  }

  lemma Indexed(me: TorId, ops: seq<Op>, db: Db, k: GroupName, mid: MsgId, g: GroupName, h: GroupName,
                rows: map<MsgId, Row>, x: map<MsgId, int>, y: map<MsgId, int>) returns (ops': seq<Op>, db': Db)
    requires Leads(me, ops, db) && Scene(db, g, h, rows, x, y) && mid in rows && mid in db.files && g != h
    requires (k == g && mid !in x) || (k == h && mid !in y)
    ensures Leads(me, ops', db') && db'.files == db.files
    ensures Scene(db', g, h, rows[mid := rows[mid].(refs := rows[mid].refs + 1)],
                  if k == g then x[mid := rows[mid].id] else x, if k == h then y[mid := rows[mid].id] else y)
  {
    var op := Do(CmdAddArticleToGroup(k, mid, rows[mid].id));
    Then(me, ops, db, op);
    ops', db' := ops + [op], AddArticleToGroup(db, k, mid, rows[mid].id).0;
    assert rows[mid := rows[mid].(refs := rows[mid].refs + 1)].Keys == rows.Keys;
    assert |rows[mid := rows[mid].(refs := rows[mid].refs + 1)]| == |rows|;
  }

  // ---- a cancel in the only group -------------------------------------------

  lemma OneGroupTargets(db: Db, g: GroupName, mid: MsgId, from: TorId)
    requires ',' !in g && mid in db.rows && db.rows[mid].signature in db.files
    requires db.files[db.rows[mid].signature].from == from && db.files[db.rows[mid].signature].newsgroups == g
    ensures CancelTargets(db, from, mid, g) == [g]
  {
    SplitPlain(g, ',');
    assert [g][1..] == [] && Requested([], [g]) == [];
  }

  /** Posting an article to one group and cancelling it leaves its row without
      its file; every cursor below that row is blocked after every later run. */
  lemma LastCancelBlocks(me: TorId, from: TorId, mid: MsgId, g: GroupName, h: GroupName) returns (ops: seq<Op>, db: Db)
    requires TwoNames(g, h)
    ensures Leads(me, ops, db) && !RowsHaveFiles(db)
    ensures forall later | IsRun(db, later) && ProperRun(db, later) :: GetNextArticle(Final(db, later), 0) == Error
  {
    var a := Plain(mid, from, g);
    ops, db := TwoGroups(me, g, h);
    ops, db := Stored(me, ops, db, a, g, h, map[], map[], map[]);
    ops, db := Indexed(me, ops, db, g, mid, g, h, map[mid := Row(1, mid, 0)], map[], map[]);
    ops, db := CancelledOnce(me, ops, db, mid, from, g, h);
    BlankFollows(me);
    RunFollows(Blank(me), ops, {});
    forall later | IsRun(db, later) && ProperRun(db, later) ensures GetNextArticle(Final(db, later), 0) == Error {
      ExhaustedRowBlocks(db, later, 0, mid);
    }
  }

  lemma CancelledOnce(me: TorId, ops: seq<Op>, db: Db, mid: MsgId, from: TorId, g: GroupName, h: GroupName)
    returns (ops': seq<Op>, db': Db)
    requires TwoNames(g, h) && Leads(me, ops, db)
    requires Scene(db, g, h, map[mid := Row(1, mid, 1)], map[mid := 1], map[])
    requires mid in db.files && db.files[mid] == Plain(mid, from, g)
    ensures Leads(me, ops', db') && IsNextRow(db', 0, mid) && !HasFile(db', mid)
  {
    var op := Do(CmdCancelMessage(from, mid, g));
    OneGroupTargets(db, g, mid, from);
    assert Holders(db, mid) == {g};
    assert Visited([g], 1) == [g];
    Then(me, ops, db, op);
    ops', db' := ops + [op], Perform(db, op);
    CancelAlone(db, g, mid, mid);
  }

  lemma CancelAlone(db: Db, g: GroupName, mid: MsgId, sig: Sig)
    requires g in db.groups && mid in db.rows && db.rows[mid].refs == 1 && sig in db.files
    ensures var d := CancelGroups(db, [g], mid, sig, AsWritten).0;
            d.rows == db.rows[mid := db.rows[mid].(refs := 0)] && d.files == db.files - {sig}
  {
  }

  // ---- a cancel that names a group twice ------------------------------------

  lemma TwiceTargets(db: Db, g: GroupName, h: GroupName, mid: MsgId, from: TorId)
    requires TwoNames(g, h) && mid in db.rows && db.rows[mid].signature in db.files
    requires db.files[db.rows[mid].signature].from == from
    requires db.files[db.rows[mid].signature].newsgroups == g + "," + h
    ensures CancelTargets(db, from, mid, g + "," + g) == [g, g]
  {
    assert g + "," + h == g + [','] + h && g + "," + g == g + [','] + g;
    SplitPrefix(g, h, ',');
    SplitPrefix(g, g, ',');
    SplitPlain(g, ',');
    SplitPlain(h, ',');
    var named := [g, h];
    assert [g] + [h] == named && [g] + [g] == [g, g];
    assert [g, g][1..] == [g] && [g][1..] == [] && Requested([], named) == [];
    assert Requested([g], named) == [g];
  }

  lemma LeadsToValid(me: TorId, ops: seq<Op>, db: Db)
    requires Leads(me, ops, db)
    ensures Valid(db)
  {
    BlankFollows(me);
    RunFollows(Blank(me), ops, {});
  }

  lemma InBothGroups(me: TorId, a: Article, g: GroupName, h: GroupName) returns (ops: seq<Op>, db: Db)
    requires g != h && a.signature == a.messageId
    ensures Leads(me, ops, db) && db.files == map[a.messageId := a]
    ensures Scene(db, g, h, map[a.messageId := Row(1, a.messageId, 2)], map[a.messageId := 1], map[a.messageId := 1])
  {
    var mid := a.messageId;
    ops, db := TwoGroups(me, g, h);
    ops, db := Stored(me, ops, db, a, g, h, map[], map[], map[]);
    ops, db := Indexed(me, ops, db, g, mid, g, h, map[mid := Row(1, mid, 0)], map[], map[]);
    ops, db := Indexed(me, ops, db, h, mid, g, h, map[mid := Row(1, mid, 1)], map[mid := 1], map[]);
  }

  /** An article posted to two groups and cancelled in one of them, named twice:
      the count reaches zero and the file goes, though the other group holds the
      article still. */
  lemma TwiceNamedCancel(me: TorId, from: TorId, mid: MsgId, g: GroupName, h: GroupName) returns (ops: seq<Op>, db: Db)
    requires TwoNames(g, h)
    ensures Leads(me, ops, db) && Runs(db, CmdCancelMessage(from, mid, g + "," + g))
    ensures var d := CancelMessage(db, from, mid, g + "," + g, AsWritten).0;
            mid in d.rows && d.rows[mid].refs == 0 && Holders(d, mid) == {h} && !HasFile(d, mid)
  {
    ops, db := InBothGroups(me, Plain(mid, from, g + "," + h), g, h);
    assert FilesOk(db) by {
      LeadsToValid(me, ops, db);
    }
    TwiceTargets(db, g, h, mid, from);
    CancelledTwice(db, mid, from, g, h);
  }

  lemma CancelledTwice(db: Db, mid: MsgId, from: TorId, g: GroupName, h: GroupName)
    requires TwoNames(g, h) && Scene(db, g, h, map[mid := Row(1, mid, 2)], map[mid := 1], map[mid := 1]) && mid in db.files
    requires CancelTargets(db, from, mid, g + "," + g) == [g, g] && FilesOk(db)
    ensures Runs(db, CmdCancelMessage(from, mid, g + "," + g))
    ensures var d := CancelMessage(db, from, mid, g + "," + g, AsWritten).0;
            mid in d.rows && d.rows[mid].refs == 0 && Holders(d, mid) == {h} && !HasFile(d, mid)
  {
    CancelMessageEffect(db, from, mid, g + "," + g);
    var d := CancelMessage(db, from, mid, g + "," + g, AsWritten).0;
    assert Visited([g, g], 2) == [g, g];
    OutOfFirst(db, d, mid, g, h);
  }

  lemma OutOfFirst(db: Db, d: Db, mid: MsgId, g: GroupName, h: GroupName)
    requires g != h && Scene(db, g, h, map[mid := Row(1, mid, 2)], map[mid := 1], map[mid := 1])
    requires CancelLeaves(db, d, mid, [g, g], true)
    ensures d.rows[mid].refs == 0 && Holders(d, mid) == {h} && !HasFile(d, mid)
  {
    CancelLeavesHolders(db, d, mid, [g, g], true);
    assert Holders(db, mid) == {g, h};
    assert Names([g, g]) == {g};
    assert |[g, g]| == 2 && mid !in d.files;
  }

  // ---- interleaved posts ----------------------------------------------------

  lemma TwoStored(me: TorId, from: TorId, m: MsgId, n: MsgId, g: GroupName, h: GroupName) returns (ops: seq<Op>, db: Db)
    requires g != h && m != n
    ensures Leads(me, ops, db) && m in db.files && n in db.files
    ensures Scene(db, g, h, map[m := Row(1, m, 0), n := Row(2, n, 0)], map[], map[])
  {
    ops, db := TwoGroups(me, g, h);
    ops, db := Stored(me, ops, db, Plain(m, from, g), g, h, map[], map[], map[]);
    ops, db := Stored(me, ops, db, Plain(n, from, g), g, h, map[m := Row(1, m, 0)], map[], map[]);
  }

  lemma SecondIndexed(me: TorId, from: TorId, m: MsgId, n: MsgId, g: GroupName, h: GroupName) returns (ops: seq<Op>, db: Db)
    requires g != h && m != n
    ensures Leads(me, ops, db) && m in db.files
    ensures Scene(db, g, h, map[m := Row(1, m, 0), n := Row(2, n, 1)], map[n := 2], map[])
  {
    ops, db := TwoStored(me, from, m, n, g, h);
    var rows := map[m := Row(1, m, 0), n := Row(2, n, 0)];
    ops, db := Indexed(me, ops, db, g, n, g, h, rows, map[], map[]);
    assert rows[n := Row(2, n, 1)] == map[m := Row(1, m, 0), n := Row(2, n, 1)];
  }

  /** Two posts to one group, the second indexed first: the low mark is 2 and then
      falls to 1. */
  lemma InterleavedPostsLowerLow(me: TorId, from: TorId, m: MsgId, n: MsgId, g: GroupName, h: GroupName)
    returns (ops: seq<Op>, db: Db, d: Db)
    requires TwoNames(g, h) && m != n
    ensures Leads(me, ops, db) && Leads(me, ops + [Do(CmdAddArticleToGroup(g, m, 1))], d)
    ensures g in db.groups && IsLow(db.groups[g].index, 2)
    ensures g in d.groups && IsLow(d.groups[g].index, 1)
  {
    ops, db := SecondIndexed(me, from, m, n, g, h);
    Then(me, ops, db, Do(CmdAddArticleToGroup(g, m, 1)));
    d := AddArticleToGroup(db, g, m, 1).0;
    assert d.groups[g].index == map[n := 2][m := 1];
    assert m in d.groups[g].index && n in db.groups[g].index;
  }
}
