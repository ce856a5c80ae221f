/** Whole runs of the article database, restarts included. */
module ArticleRuns {
  import opened Options
  import opened Sets
  import opened Text
  import opened ArticleDb
  import opened ArticleRefs

  datatype Op = Do(c: Cmd) | Restart(now: int)

  ghost predicate Allowed(db: Db, op: Op) {
    match op
    case Do(c) => Runs(db, c)
    case Restart(now) => Reopen(db, now).Some?
  }

  ghost function Perform(db: Db, op: Op): Db
    requires Allowed(db, op)
  {
    match op
    case Do(c) => Apply(db, c).0
    case Restart(now) => Reopen(db, now).value
  }

  /** What the relay's own callers see to: fresh signatures, indexing what has
      just been stored, and fair cancels. */
  ghost predicate Proper(db: Db, op: Op) {
    match op
    case Do(CmdStoreArticle(a)) => FreshSignature(db, a)
    case Do(CmdAddArticleToGroup(_, mid, id)) => HasFile(db, mid) && db.rows[mid].id == id
    case Do(CmdCancelMessage(from, mid, newsgroups)) => FairCancel(db, from, mid, newsgroups)
    case _ => true
  }

  ghost predicate IsRun(db: Db, ops: seq<Op>)
    decreases |ops|
  {
    ops == [] || (Allowed(db, ops[0]) && IsRun(Perform(db, ops[0]), ops[1..]))
  }

  ghost predicate ProperRun(db: Db, ops: seq<Op>)
    requires IsRun(db, ops)
    decreases |ops|
  {
    ops == [] || (Proper(db, ops[0]) && ProperRun(Perform(db, ops[0]), ops[1..]))
  }

  ghost function Final(db: Db, ops: seq<Op>): Db
    requires IsRun(db, ops)
    decreases |ops|
  {
    if ops == [] then db else Final(Perform(db, ops[0]), ops[1..])
  }

  // ---- one operation --------------------------------------------------------

  /** Nothing the reference invariant looks at differs. */
  ghost predicate SameFiling(db: Db, d: Db) {
    && d.rows == db.rows && d.files == db.files && db.lastId <= d.lastId
    && (forall m :: Holders(d, m) == Holders(db, m))
    && (forall g | g in d.groups && d.groups[g].index != map[] ::
          g in db.groups && d.groups[g].index == db.groups[g].index)
  }

  lemma SameFilingValid(db: Db, d: Db)
    requires Valid(db) && SameFiling(db, d)
    ensures Valid(d)
  {
    forall m | m in d.rows ensures RefsExact(d, m) {
      assert RefsExact(db, m);
    }
    forall g, m | g in d.groups && m in d.groups[g].index
      ensures m in d.rows && d.groups[g].index[m] == d.rows[m].id && HasFile(d, m)
    {
      assert m in db.groups[g].index && HasFile(db, m);
    }
  }

  predicate Files(op: Op) {
    op.Do? && (op.c.CmdStoreArticle? || op.c.CmdAddArticleToGroup? || op.c.CmdCancelMessage?)
  }

  lemma SameGroupIndexes(db: Db, d: Db)
    requires d.rows == db.rows && d.files == db.files && db.lastId <= d.lastId
    requires forall g | g in db.groups :: g in d.groups && d.groups[g].index == db.groups[g].index
    requires forall g | g in d.groups && g !in db.groups :: d.groups[g].index == map[]
    ensures SameFiling(db, d)
  {
    forall m ensures Holders(d, m) == Holders(db, m) {
      assert forall g :: g in Holders(d, m) <==> g in Holders(db, m);
    }
  }

  /** Commands that create or configure groups and peers. */
  predicate Shapes(op: Op) {
    op.Do? && (op.c.CmdNewGroup? || op.c.CmdGroupConfigSet? || op.c.CmdAddPeer?)
  }

  lemma ShapesKeepFiling(db: Db, op: Op)
    requires Allowed(db, op) && Shapes(op)
    ensures SameFiling(db, Perform(db, op))
  {
    SameGroupIndexes(db, Perform(db, op));
  }

  lemma OtherOpsKeepFiling(db: Db, op: Op)
    requires Allowed(db, op) && !Files(op)
    ensures SameFiling(db, Perform(db, op))
  {
    if Shapes(op) {
      ShapesKeepFiling(db, op);
    } else {
      assert Perform(db, op).groups == db.groups;
      SameGroupIndexes(db, Perform(db, op));
    }
  }

  lemma OpValid(db: Db, op: Op)
    requires Valid(db) && Allowed(db, op) && Proper(db, op)
    ensures Valid(Perform(db, op))
  {
    match op {
      case Do(CmdStoreArticle(a)) => StoreArticleValid(db, a);
      case Do(CmdAddArticleToGroup(g, mid, id)) => AddArticleToGroupValid(db, g, mid, id);
      case Do(CmdCancelMessage(from, mid, newsgroups)) => CancelMessageValid(db, from, mid, newsgroups);
      case _ =>
        OtherOpsKeepFiling(db, op);
        SameFilingValid(db, Perform(db, op));
    }
  }

  // ---- files follow groups --------------------------------------------------

  /** Some group held mid at some point of the run. */
  ghost predicate EverHeld(db: Db, ops: seq<Op>, mid: MsgId)
    requires IsRun(db, ops)
    decreases |ops|
  {
    Holders(db, mid) != {} || (ops != [] && EverHeld(Perform(db, ops[0]), ops[1..], mid))
  }

  /** held says which articles have been in a group up to now. */
  ghost predicate FilesFollowGroups(db: Db, held: set<MsgId>) {
    && (forall m :: Holders(db, m) != {} ==> m in held)
    && (forall m | m in db.rows :: HasFile(db, m) <==> Holders(db, m) != {} || m !in held)
  }

  ghost function NowHeld(db: Db): set<MsgId> {
    set m | m in db.rows && Holders(db, m) != {}
  }

  lemma HeldAreRows(db: Db)
    requires IndexesOk(db)
    ensures forall m :: Holders(db, m) != {} <==> m in NowHeld(db)
  {
    forall m | Holders(db, m) != {} ensures m in db.rows {
      var g :| g in Holders(db, m);
      assert m in db.groups[g].index;
    }
  }

  lemma OpFollows(db: Db, op: Op, held: set<MsgId>)
    requires Valid(db) && Allowed(db, op) && Proper(db, op)
    requires FilesFollowGroups(db, held) && held <= db.rows.Keys
    ensures var d := Perform(db, op);
            FilesFollowGroups(d, held + NowHeld(d)) && held + NowHeld(d) <= d.rows.Keys
  {
    OpValid(db, op);
    HeldAreRows(Perform(db, op));
    OpKeepsFollowing(db, op, held);
  }

  lemma OpKeepsFollowing(db: Db, op: Op, held: set<MsgId>)
    requires Valid(db) && Allowed(db, op) && Proper(db, op)
    requires FilesFollowGroups(db, held) && held <= db.rows.Keys
    ensures var d := Perform(db, op);
            && db.rows.Keys <= d.rows.Keys
            && forall m | m in d.rows :: HasFile(d, m) <==> Holders(d, m) != {} || m !in held + NowHeld(d)
  {
    match op {
      case Do(CmdStoreArticle(a)) => StoreFollows(db, a, held);
      case Do(CmdAddArticleToGroup(g, mid, id)) => AddFollows(db, g, mid, id, held);
      case Do(CmdCancelMessage(from, mid, newsgroups)) => CancelFollows(db, from, mid, newsgroups, held);
      case _ => OthersFollow(db, op, held);
    }
  }

  lemma OthersFollow(db: Db, op: Op, held: set<MsgId>)
    requires IndexesOk(db) && Allowed(db, op) && !Files(op) && FilesFollowGroups(db, held)
    ensures var d := Perform(db, op);
            && db.rows.Keys <= d.rows.Keys
            && forall m | m in d.rows :: HasFile(d, m) <==> Holders(d, m) != {} || m !in held + NowHeld(d)
  {
    OtherOpsKeepFiling(db, op);
  }

  lemma StoreFollows(db: Db, a: Article, held: set<MsgId>)
    requires IndexesOk(db) && FreshSignature(db, a) && FilesFollowGroups(db, held) && held <= db.rows.Keys
    ensures var d := StoreArticle(db, a).0;
            && db.rows.Keys <= d.rows.Keys
            && forall m | m in d.rows :: HasFile(d, m) <==> Holders(d, m) != {} || m !in held + NowHeld(d)
  {
    var d := StoreArticle(db, a).0;
    if a.messageId !in db.rows {
      HeldAreRows(db);
      forall m | m in d.rows ensures HasFile(d, m) <==> Holders(d, m) != {} || m !in held + NowHeld(d) {
        assert Holders(d, m) == Holders(db, m);
        if m != a.messageId {
          assert db.rows[m].signature != a.signature;
          assert HasFile(d, m) <==> HasFile(db, m);
        } else {
          assert m !in held && m !in NowHeld(db);
        }
      }
    }
  }

  lemma AddFollows(db: Db, g: GroupName, mid: MsgId, id: int, held: set<MsgId>)
    requires Valid(db) && g in db.groups && HasFile(db, mid) && db.rows[mid].id == id
    requires FilesFollowGroups(db, held)
    ensures var d := AddArticleToGroup(db, g, mid, id).0;
            && db.rows.Keys == d.rows.Keys
            && forall m | m in d.rows :: HasFile(d, m) <==> Holders(d, m) != {} || m !in held + NowHeld(d)
  {
    var d := AddArticleToGroup(db, g, mid, id).0;
    AddArticleToGroupValid(db, g, mid, id);
    forall m | m in d.rows ensures HasFile(d, m) <==> HasFile(db, m) {
    }
    assert g in Holders(d, mid);
  }

  lemma CancelFollows(db: Db, from: TorId, mid: MsgId, newsgroups: string, held: set<MsgId>)
    requires Valid(db) && Runs(db, CmdCancelMessage(from, mid, newsgroups)) && FairCancel(db, from, mid, newsgroups)
    requires FilesFollowGroups(db, held)
    ensures var d := CancelMessage(db, from, mid, newsgroups, AsWritten).0;
            && db.rows.Keys == d.rows.Keys
            && forall m | m in d.rows :: HasFile(d, m) <==> Holders(d, m) != {} || m !in held + NowHeld(d)
  {
    CancelMessageValid(db, from, mid, newsgroups);
  }

  lemma {:induction false} RunFollows(db: Db, ops: seq<Op>, held: set<MsgId>)
    requires Valid(db) && IsRun(db, ops) && ProperRun(db, ops)
    requires FilesFollowGroups(db, held) && held <= db.rows.Keys
    ensures var d := Final(db, ops);
            && Valid(d)
            && forall m | m in d.rows :: HasFile(d, m) <==> Holders(d, m) != {} || !(m in held || EverHeld(db, ops, m))
    decreases |ops|
  {
    if ops != [] {
      var d := Perform(db, ops[0]);
      OpValid(db, ops[0]);
      OpFollows(db, ops[0], held);
      HeldAreRows(d);
      RunFollows(d, ops[1..], held + NowHeld(d));
    }
  }

  /** Reference counting over every proper run from an empty store, restarts
      included: each count is the number of group indexes holding the article,
      each index entry carries the number of a row, and an article that has ever
      been in a group has its file exactly while some group still holds it. */
  lemma ReferenceCounting(me: TorId, ops: seq<Op>)
    requires IsRun(Blank(me), ops) && ProperRun(Blank(me), ops)
    ensures var d := Final(Blank(me), ops);
            && (forall m | m in d.rows :: d.rows[m].refs == |Holders(d, m)|)
            && (forall g, m | g in d.groups && m in d.groups[g].index ::
                  m in d.rows && d.groups[g].index[m] == d.rows[m].id)
            && (forall m | m in d.rows && EverHeld(Blank(me), ops, m) :: HasFile(d, m) <==> Holders(d, m) != {})
            && (forall m | m in d.rows && !EverHeld(Blank(me), ops, m) :: HasFile(d, m))
  {
    BlankFollows(me);
    RunFollows(Blank(me), ops, {});
    ValidRefs(Final(Blank(me), ops));
  }

  lemma BlankFollows(me: TorId)
    ensures Valid(Blank(me)) && FilesFollowGroups(Blank(me), {})
  {
  }

  lemma ValidRefs(d: Db)
    requires Valid(d)
    ensures forall m | m in d.rows :: d.rows[m].refs == |Holders(d, m)|
    ensures forall g, m | g in d.groups && m in d.groups[g].index ::
              m in d.rows && d.groups[g].index[m] == d.rows[m].id
  {
    forall m | m in d.rows ensures d.rows[m].refs == |Holders(d, m)| {
      assert RefsExact(d, m);
    }
  }

  // ---- the delete that fails ------------------------------------------------

  ghost predicate RowsHaveFiles(db: Db) {
    forall m | m in db.rows :: HasFile(db, m)
  }

  /** The intended delete would differ from the one written in the row alone. */
  lemma {:induction false} IntendedGroups(db: Db, gs: seq<GroupName>, mid: MsgId, sig: Sig)
    requires forall g | g in gs :: g in db.groups
    requires mid in db.rows && sig in db.files
    requires Distinct(Visited(gs, db.rows[mid].refs)) && db.rows[mid].refs == |Holders(db, mid)|
    requires forall g | g in Visited(gs, db.rows[mid].refs) :: g in Holders(db, mid)
    ensures var d := CancelGroups(db, gs, mid, sig, AsWritten).0;
            CancelGroups(db, gs, mid, sig, AsIntended).0
            == if Gone(gs, db.rows[mid].refs) then d.(rows := d.rows - {mid}) else d
    decreases |gs|
  {
    if gs != [] {
      var refs := db.rows[mid].refs;
      var v := Visited(gs, refs);
      var d := SetIndex(db, gs[0], db.groups[gs[0]].index - {mid});
      var e := AddRefs(d, mid, -1);
      HoldersSetIndex(db, gs[0], db.groups[gs[0]].index - {mid}, mid);
      assert Holders(e, mid) == Holders(d, mid) == Holders(db, mid) - {gs[0]};
      assert v[0] == gs[0];
      if e.rows[mid].refs != 0 {
        VisitedStep(gs, refs);
        var w := Visited(gs[1..], refs - 1);
        assert v == [gs[0]] + w;
        assert forall i | 0 <= i < |w| :: w[i] == v[i + 1];
        IntendedGroups(e, gs[1..], mid, sig);
      } else {
        var f := e.(files := e.files - {sig}, rows := e.rows - {mid});
        assert gs[0] in v && gs[0] in Holders(db, mid);
        assert |Holders(e, mid)| == |Holders(db, mid)| - 1;
        assert Holders(f, mid) == Holders(e, mid) == {};
        IntendedRest(f, gs[1..], mid, sig);
      }
    }
  }

  /** With the row gone the loop touches nothing more. */
  lemma IntendedRest(db: Db, gs: seq<GroupName>, mid: MsgId, sig: Sig)
    requires forall g | g in gs :: g in db.groups
    requires mid !in db.rows && Holders(db, mid) == {}
    ensures CancelGroups(db, gs, mid, sig, AsIntended).0 == db
  {
    if gs != [] {
      assert gs[0] !in Holders(db, mid);
      assert db.groups[gs[0]].index - {mid} == db.groups[gs[0]].index;
      assert db.groups[gs[0] := db.groups[gs[0]]] == db.groups;
    }
  }

  /** Where every row has its file, a fair cancel keeps it so as written exactly
      when it leaves the article in some group; the intended delete always does. */
  lemma CancelRowsHaveFiles(db: Db, from: TorId, mid: MsgId, newsgroups: string)
    requires Valid(db) && RowsHaveFiles(db)
    requires Runs(db, CmdCancelMessage(from, mid, newsgroups)) && FairCancel(db, from, mid, newsgroups)
    ensures var gs := CancelTargets(db, from, mid, newsgroups);
            && (RowsHaveFiles(CancelMessage(db, from, mid, newsgroups, AsWritten).0)
                <==> gs == [] || !(Holders(db, mid) <= Names(gs)))
            && RowsHaveFiles(CancelMessage(db, from, mid, newsgroups, AsIntended).0)
  {
    var gs := CancelTargets(db, from, mid, newsgroups);
    CancelMessageEffect(db, from, mid, newsgroups);
    if gs != [] {
      var refs := db.rows[mid].refs;
      assert RefsExact(db, mid);
      FairGone(db, gs, mid);
      FoundFile(db, mid);
      IntendedGroups(db, gs, mid, db.rows[mid].signature);
      LeavesRowsHaveFiles(db, CancelMessage(db, from, mid, newsgroups, AsWritten).0, mid, Visited(gs, refs), Gone(gs, refs));
    }
  }

  lemma LeavesRowsHaveFiles(db: Db, d: Db, mid: MsgId, v: seq<GroupName>, gone: bool)
    requires mid in db.rows && CancelLeaves(db, d, mid, v, gone) && RowsOk(db) && RowsHaveFiles(db)
    ensures RowsHaveFiles(d) <==> !gone
    ensures RowsHaveFiles(d.(rows := d.rows - {mid}))
  {
    assert SameRows(db.rows, d.rows);
    CancelFilesKept(db, d, mid, v, gone);
    assert HasFile(db, mid);
    assert HasFile(d, mid) <==> !gone;
    forall m | m in d.rows && m != mid ensures HasFile(d, m) {
      assert HasFile(db, m);
    }
  }

  lemma FairGone(db: Db, gs: seq<GroupName>, mid: MsgId)
    requires mid in db.rows && RefsExact(db, mid) && gs != []
    requires Distinct(Visited(gs, db.rows[mid].refs))
    requires forall g | g in Visited(gs, db.rows[mid].refs) :: g in Holders(db, mid)
    ensures Gone(gs, db.rows[mid].refs) <==> Holders(db, mid) <= Names(gs)
  {
    var refs, h := db.rows[mid].refs, Holders(db, mid);
    var v := Visited(gs, refs);
    assert v[0] in h;
    NamesSize(v);
    SubsetBound(Names(v), h);
    if Gone(gs, refs) {
      assert Names(v) == h;
      forall g | g in h ensures g in Names(gs) {
        assert g in v;
      }
    } else {
      assert v == gs;
      if h <= Names(gs) {
        SubsetBound(h, Names(gs));
      }
    }
  }

  /** A row whose file is gone blocks every cursor right below it for good: no
      later operation brings the file back, drops the row or slips a number in
      between, so GetNextArticle keeps failing there. */
  lemma {:induction false} ExhaustedRowBlocks(db: Db, ops: seq<Op>, last: int, mid: MsgId)
    requires Valid(db) && IsRun(db, ops) && ProperRun(db, ops)
    requires IsNextRow(db, last, mid) && !HasFile(db, mid)
    ensures IsNextRow(Final(db, ops), last, mid) && GetNextArticle(Final(db, ops), last) == Error
    decreases |ops|
  {
    if ops == [] {
      NextRowUnique(db, last, mid);
    } else {
      OpValid(db, ops[0]);
      OpKeepsBlock(db, ops[0], last, mid);
      ExhaustedRowBlocks(Perform(db, ops[0]), ops[1..], last, mid);
    }
  }

  lemma NextRowUnique(db: Db, last: int, mid: MsgId)
    requires RowsOk(db) && IsNextRow(db, last, mid)
    ensures GetNextArticle(db, last) == GetArticleById(db, mid)
  {
    forall m | IsNextRow(db, last, m) ensures m == mid {
      assert db.rows[m].id == db.rows[mid].id;
    }
  }

  lemma OpKeepsBlock(db: Db, op: Op, last: int, mid: MsgId)
    requires Valid(db) && Allowed(db, op) && Proper(db, op)
    requires IsNextRow(db, last, mid) && !HasFile(db, mid)
    ensures IsNextRow(Perform(db, op), last, mid) && !HasFile(Perform(db, op), mid)
  {
    match op {
      case Do(CmdStoreArticle(a)) => StoreKeepsBlock(db, a, last, mid);
      case Do(CmdAddArticleToGroup(g, m, id)) => AddKeepsBlock(db, g, m, id, last, mid);
      case Do(CmdCancelMessage(from, m, newsgroups)) =>
        CancelKeepsBlock(db, from, m, newsgroups, last, mid);
      case _ => OtherOpsKeepFiling(db, op);
    }
  }

  lemma AddKeepsBlock(db: Db, g: GroupName, m: MsgId, id: int, last: int, mid: MsgId)
    requires g in db.groups && IsNextRow(db, last, mid) && !HasFile(db, mid)
    ensures var d := AddArticleToGroup(db, g, m, id).0; IsNextRow(d, last, mid) && !HasFile(d, mid)
  {
    SameRowsNext(db, AddArticleToGroup(db, g, m, id).0, last, mid);
  }

  lemma StoreKeepsBlock(db: Db, a: Article, last: int, mid: MsgId)
    requires RowsOk(db) && FreshSignature(db, a) && IsNextRow(db, last, mid) && !HasFile(db, mid)
    ensures IsNextRow(StoreArticle(db, a).0, last, mid) && !HasFile(StoreArticle(db, a).0, mid)
  {
    var d := StoreArticle(db, a).0;
    if a.messageId !in db.rows {
      assert db.rows[mid].signature != a.signature;
      forall m | m in d.rows && last < d.rows[m].id ensures d.rows[mid].id <= d.rows[m].id {
        assert m in db.rows || m == a.messageId;
      }
    }
  }

  lemma CancelKeepsBlock(db: Db, from: TorId, m: MsgId, newsgroups: string, last: int, mid: MsgId)
    requires FilesOk(db) && Runs(db, CmdCancelMessage(from, m, newsgroups))
    requires IsNextRow(db, last, mid) && !HasFile(db, mid)
    ensures var d := CancelMessage(db, from, m, newsgroups, AsWritten).0;
            IsNextRow(d, last, mid) && !HasFile(d, mid)
  {
    CancelMessageEffect(db, from, m, newsgroups);
    if CancelTargets(db, from, m, newsgroups) != [] {
      var d := CancelMessage(db, from, m, newsgroups, AsWritten).0;
      assert SameRows(db.rows, d.rows) && forall s | s in d.files :: s in db.files;
      SameRowsNext(db, d, last, mid);
    }
  }

  lemma SameRowsNext(db: Db, d: Db, last: int, mid: MsgId)
    requires SameRows(db.rows, d.rows) && IsNextRow(db, last, mid)
    ensures IsNextRow(d, last, mid)
  {
    assert forall m :: m in d.rows <==> m in db.rows;
  }

  // ---- numbers --------------------------------------------------------------

  /** The numbers a run gives to newly stored articles, in order. */
  ghost function NumbersGiven(db: Db, ops: seq<Op>): seq<int>
    requires IsRun(db, ops)
    decreases |ops|
  {
    if ops == [] then []
    else
      var rest := NumbersGiven(Perform(db, ops[0]), ops[1..]);
      if ops[0].Do? && ops[0].c.CmdStoreArticle? && Apply(db, ops[0].c).1.Number?
      then [Apply(db, ops[0].c).1.n] + rest else rest
  }

  lemma LastIdGrows(db: Db, op: Op)
    requires Allowed(db, op)
    ensures db.lastId <= Perform(db, op).lastId
  {
    if op.Do? && op.c.CmdCancelMessage? {
      CancelKeepsLastId(db, op.c.from, op.c.mid, op.c.newsgroups);
    }
  }

  lemma CancelKeepsLastId(db: Db, from: TorId, mid: MsgId, newsgroups: string)
    requires Runs(db, CmdCancelMessage(from, mid, newsgroups))
    ensures CancelMessage(db, from, mid, newsgroups, AsWritten).0.lastId == db.lastId
  {
    if GetArticleById(db, mid).Found? {
      CancelGroupsKeepsLastId(db, CancelTargets(db, from, mid, newsgroups), mid, GetArticleById(db, mid).article.signature);
    }
  }

  lemma {:induction false} CancelGroupsKeepsLastId(db: Db, gs: seq<GroupName>, mid: MsgId, sig: Sig)
    requires forall g | g in gs :: g in db.groups
    ensures CancelGroups(db, gs, mid, sig, AsWritten).0.lastId == db.lastId
    decreases |gs|
  {
    if gs != [] {
      var d := SetIndex(db, gs[0], db.groups[gs[0]].index - {mid});
      if mid in d.rows && AddRefs(d, mid, -1).rows[mid].refs != 0 {
        CancelGroupsKeepsLastId(AddRefs(d, mid, -1), gs[1..], mid, sig);
      }
    }
  }

  ghost predicate Ascending(ns: seq<int>, above: int, upTo: int) {
    && (forall i | 0 <= i < |ns| :: above < ns[i] <= upTo)
    && (forall i, j | 0 <= i < j < |ns| :: ns[i] < ns[j])
  }

  lemma AscendingCons(n: int, ns: seq<int>, above: int, upTo: int)
    requires Ascending(ns, n, upTo) && above < n <= upTo
    ensures Ascending([n] + ns, above, upTo)
  {
  }

  /** Numbers only grow, whatever is stored, cancelled or restarted in between:
      each new article is numbered above all that were numbered before it. */
  lemma {:induction false} NumbersGrow(db: Db, ops: seq<Op>)
    requires IsRun(db, ops)
    ensures Ascending(NumbersGiven(db, ops), db.lastId, Final(db, ops).lastId)
    ensures db.lastId <= Final(db, ops).lastId
    decreases |ops|
  {
    if ops != [] {
      var d := Perform(db, ops[0]);
      LastIdGrows(db, ops[0]);
      NumbersGrow(d, ops[1..]);
      if ops[0].Do? && ops[0].c.CmdStoreArticle? && Apply(db, ops[0].c).1.Number? {
        AscendingCons(d.lastId, NumbersGiven(d, ops[1..]), db.lastId, Final(db, ops).lastId);
      }
    }
  }
}
