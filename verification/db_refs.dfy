/** Reference counts, files and row numbers of the article database, over single
    commands and over whole runs. */
module ArticleRefs {
  import opened Sets
  import opened ArticleDb

  // ---- the invariant --------------------------------------------------------

  /** The groups whose index holds mid. */
  function Holders(db: Db, mid: MsgId): set<GroupName> {
    set g | g in db.groups && mid in db.groups[g].index
  }

  ghost predicate RowsOk(db: Db) {
    && (forall m | m in db.rows :: 0 < db.rows[m].id <= db.lastId)
    && (forall m, n | m in db.rows && n in db.rows && db.rows[m].id == db.rows[n].id :: m == n)
    && (forall m, n | m in db.rows && n in db.rows && db.rows[m].signature == db.rows[n].signature :: m == n)
    && 0 <= db.lastId
  }

  /** Each file is the article of the row that names it. */
  ghost predicate FilesOk(db: Db) {
    forall s | s in db.files ::
      && db.files[s].signature == s
      && db.files[s].messageId in db.rows && db.rows[db.files[s].messageId].signature == s
  }

  ghost predicate IndexesOk(db: Db) {
    forall g, m | g in db.groups && m in db.groups[g].index ::
      m in db.rows && db.groups[g].index[m] == db.rows[m].id
  }

  /** refs counts the group indexes that hold the article. */
  ghost predicate RefsExact(db: Db, mid: MsgId) {
    mid in db.rows ==> db.rows[mid].refs == |Holders(db, mid)|
  }

  ghost predicate RefsOk(db: Db) {
    forall m | m in db.rows :: RefsExact(db, m)
  }

  ghost predicate HasFile(db: Db, mid: MsgId) {
    mid in db.rows && db.rows[mid].signature in db.files
  }

  /** An indexed article can be read. */
  ghost predicate IndexedFilesOk(db: Db) {
    forall g, m | g in db.groups && m in db.groups[g].index :: HasFile(db, m)
  }

  ghost predicate Valid(db: Db) {
    RowsOk(db) && FilesOk(db) && IndexesOk(db) && RefsOk(db) && IndexedFilesOk(db)
  }

  // ---- storing and indexing -------------------------------------------------

  /** Signatures are ideal: no two articles share one. */
  ghost predicate FreshSignature(db: Db, a: Article) {
    forall m | m in db.rows && db.rows[m].signature == a.signature :: m == a.messageId
  }

  lemma StoreRowsOk(db: Db, a: Article)
    requires RowsOk(db) && FreshSignature(db, a) && a.messageId !in db.rows
    ensures RowsOk(StoreArticle(db, a).0)
  {
  }

  lemma StoreFilesOk(db: Db, a: Article)
    requires FilesOk(db) && a.messageId !in db.rows
    ensures FilesOk(StoreArticle(db, a).0)
  {
    var d := StoreArticle(db, a).0;
    forall s | s in d.files
      ensures d.files[s].signature == s
      ensures d.files[s].messageId in d.rows && d.rows[d.files[s].messageId].signature == s
    {
      if s != a.signature {
        assert s in db.files;
      }
    }
  }

  lemma StoreIndexesOk(db: Db, a: Article)
    requires IndexesOk(db) && IndexedFilesOk(db) && a.messageId !in db.rows
    ensures IndexesOk(StoreArticle(db, a).0) && IndexedFilesOk(StoreArticle(db, a).0)
    ensures Holders(db, a.messageId) == {}
  {
    var d := StoreArticle(db, a).0;
    forall g, m | g in d.groups && m in d.groups[g].index
      ensures m in d.rows && d.groups[g].index[m] == d.rows[m].id && HasFile(d, m)
    {
      assert m in db.rows && db.groups[g].index[m] == db.rows[m].id && HasFile(db, m);
    }
  }

  lemma SameIndexesRefs(db: Db, d: Db, changed: MsgId)
    requires RefsOk(db) && (forall m | m in d.rows && m != changed :: m in db.rows && d.rows[m].refs == db.rows[m].refs)
    requires forall m | m != changed :: Holders(d, m) == Holders(db, m)
    requires RefsExact(d, changed)
    ensures RefsOk(d)
  {
    forall m | m in d.rows ensures RefsExact(d, m) {
      if m != changed {
        assert RefsExact(db, m);
      }
    }
  }

  /** A new article gets a number above every earlier one and can be read back;
      a Message-Id that is already stored changes nothing. */
  lemma StoreArticleValid(db: Db, a: Article)
    requires Valid(db) && FreshSignature(db, a)
    ensures var (d, r) := StoreArticle(db, a);
            && Valid(d)
            && (r.Number? <==> a.messageId !in db.rows)
            && (!r.Number? ==> r == Error && d == db)
            && (r.Number? ==> r.n > db.lastId && d.lastId == r.n && Holders(d, a.messageId) == {}
                              && GetArticleById(d, a.messageId) == Found(r.n, a))
  {
    if a.messageId !in db.rows {
      var d := StoreArticle(db, a).0;
      StoreRowsOk(db, a);
      StoreFilesOk(db, a);
      StoreIndexesOk(db, a);
      assert forall m :: Holders(d, m) == Holders(db, m);
      SameIndexesRefs(db, d, a.messageId);
    }
  }

  lemma HoldersSetIndex(db: Db, g: GroupName, index: map<MsgId, int>, m: MsgId)
    requires g in db.groups
    ensures Holders(SetIndex(db, g, index), m)
            == if m in index then Holders(db, m) + {g} else Holders(db, m) - {g}
  {
  }

  lemma AddIndexesOk(db: Db, g: GroupName, mid: MsgId)
    requires IndexesOk(db) && IndexedFilesOk(db) && g in db.groups && HasFile(db, mid) && g !in Holders(db, mid)
    ensures var d := AddArticleToGroup(db, g, mid, db.rows[mid].id).0;
            IndexesOk(d) && IndexedFilesOk(d)
  {
    var d := AddArticleToGroup(db, g, mid, db.rows[mid].id).0;
    assert SameRows(db.rows, d.rows);
    forall h, m | h in d.groups && m in d.groups[h].index
      ensures m in d.rows && d.groups[h].index[m] == d.rows[m].id && HasFile(d, m)
    {
      if m != mid || h != g {
        assert m in db.groups[h].index && HasFile(db, m);
      }
    }
  }

  lemma AddHolders(db: Db, g: GroupName, mid: MsgId, id: int)
    requires g in db.groups && g !in Holders(db, mid) && mid in db.rows
    ensures var d := AddArticleToGroup(db, g, mid, id).0;
            && Holders(d, mid) == Holders(db, mid) + {g}
            && (forall m | m != mid :: Holders(d, m) == Holders(db, m))
  {
    var d := AddArticleToGroup(db, g, mid, id).0;
    var index := db.groups[g].index[mid := id];
    forall m ensures Holders(d, m) == if m == mid then Holders(db, m) + {g} else Holders(db, m) {
      assert Holders(d, m) == Holders(SetIndex(db, g, index), m);
      HoldersSetIndex(db, g, index, m);
    }
  }

  /** Indexing a stored article under its number adds the group to its holders
      once; a second time is refused and changes nothing. */
  lemma AddArticleToGroupValid(db: Db, g: GroupName, mid: MsgId, id: int)
    requires Valid(db) && g in db.groups
    requires HasFile(db, mid) && db.rows[mid].id == id
    ensures var (d, r) := AddArticleToGroup(db, g, mid, id);
            && Valid(d)
            && (r == Done <==> g !in Holders(db, mid)) && (r == Done || (r == Error && d == db))
            && Holders(d, mid) == Holders(db, mid) + {g}
            && (forall m | m != mid :: Holders(d, m) == Holders(db, m))
  {
    var d := AddArticleToGroup(db, g, mid, id).0;
    if g !in Holders(db, mid) {
      AddIndexesOk(db, g, mid);
      AddHolders(db, g, mid, id);
      AddRowsFilesOk(db, g, mid, id);
      assert RefsExact(db, mid);
      SameIndexesRefs(db, d, mid);
    } else {
      assert Holders(db, mid) == Holders(db, mid) + {g};
    }
  }

  lemma AddRowsFilesOk(db: Db, g: GroupName, mid: MsgId, id: int)
    requires RowsOk(db) && FilesOk(db) && g in db.groups && mid in db.rows
    ensures RowsOk(AddArticleToGroup(db, g, mid, id).0) && FilesOk(AddArticleToGroup(db, g, mid, id).0)
  {
    var d := AddArticleToGroup(db, g, mid, id).0;
    assert SameRows(db.rows, d.rows);
    SameRowsOk(db, d);
    FewerFilesOk(db, d);
  }

  // ---- cancelling -----------------------------------------------------------

  /** The entries of gs that the loop gets to: it stops at the one that takes the
      last reference off. */
  function Visited(gs: seq<GroupName>, refs: int): seq<GroupName> {
    if 1 <= refs <= |gs| then gs[..refs] else gs
  }

  function Gone(gs: seq<GroupName>, refs: int): bool {
    1 <= refs <= |gs|
  }

  function Names(gs: seq<GroupName>): set<GroupName> {
    set g | g in gs
  }

  /** v is taken off the indexes and off the count of mid, and the file sig goes with
      the last reference; nothing else changes. */
  ghost predicate TakenOff(db: Db, d: Db, mid: MsgId, sig: Sig, v: seq<GroupName>, gone: bool)
    requires mid in db.rows
  {
    && d.groups.Keys == db.groups.Keys
    && d.rows == db.rows[mid := db.rows[mid].(refs := db.rows[mid].refs - |v|)]
    && d.files == (if gone then db.files - {sig} else db.files)
    && d.lastId == db.lastId
    && (forall g | g in db.groups :: d.groups[g].index
          == if g in v then db.groups[g].index - {mid} else db.groups[g].index)
  }

  ghost predicate CancelLeaves(db: Db, d: Db, mid: MsgId, v: seq<GroupName>, gone: bool)
    requires mid in db.rows
  {
    TakenOff(db, d, mid, db.rows[mid].signature, v, gone)
  }

  lemma TakenOffOneMore(db: Db, e: Db, d: Db, mid: MsgId, sig: Sig, g: GroupName, v: seq<GroupName>, gone: bool)
    requires mid in db.rows && TakenOff(db, e, mid, sig, [g], false) && TakenOff(e, d, mid, sig, v, gone)
    ensures TakenOff(db, d, mid, sig, [g] + v, gone)
  {
  }

  lemma FirstTakenOff(db: Db, g: GroupName, mid: MsgId, sig: Sig)
    requires g in db.groups && mid in db.rows
    ensures TakenOff(db, AddRefs(SetIndex(db, g, db.groups[g].index - {mid}), mid, -1), mid, sig, [g], false)
  {
  }

  /** What the loop does to the article it cancels, as written: the visited
      groups lose it, one reference goes for each of them, and the file goes when
      the count reaches zero.  Nothing else changes. */
  lemma {:induction false} CancelGroupsEffect(db: Db, gs: seq<GroupName>, mid: MsgId, sig: Sig)
    requires forall g | g in gs :: g in db.groups
    requires mid in db.rows && sig in db.files
    ensures var (d, r) := CancelGroups(db, gs, mid, sig, AsWritten);
            && TakenOff(db, d, mid, sig, Visited(gs, db.rows[mid].refs), Gone(gs, db.rows[mid].refs))
            && (r == if Gone(gs, db.rows[mid].refs) then Error else Done)
    decreases |gs|
  {
    if gs != [] {
      var e := AddRefs(SetIndex(db, gs[0], db.groups[gs[0]].index - {mid}), mid, -1);
      FirstTakenOff(db, gs[0], mid, sig);
      if e.rows[mid].refs != 0 {
        CancelGroupsEffect(e, gs[1..], mid, sig);
        VisitedStep(gs, db.rows[mid].refs);
        TakenOffOneMore(db, e, CancelGroups(e, gs[1..], mid, sig, AsWritten).0, mid, sig, gs[0],
                        Visited(gs[1..], e.rows[mid].refs), Gone(gs[1..], e.rows[mid].refs));
      } else {
        assert gs[..1] == [gs[0]];
      }
    }
  }

  lemma VisitedStep(gs: seq<GroupName>, refs: int)
    requires gs != [] && refs != 1
    ensures Visited(gs, refs) == [gs[0]] + Visited(gs[1..], refs - 1)
  {
    if 1 <= refs <= |gs| {
      assert gs[..refs] == [gs[0]] + gs[1..][..refs - 1];
    }
  }

  lemma DistinctCons(g: GroupName, rest: seq<GroupName>)
    ensures Distinct([g] + rest) <==> Distinct(rest) && g !in rest
  {
    var gs := [g] + rest;
    if Distinct(gs) {
      forall i, j | 0 <= i < j < |rest| ensures rest[i] != rest[j] {
        assert gs[i + 1] != gs[j + 1];
      }
      forall j | 0 <= j < |rest| ensures rest[j] != g {
        assert gs[0] != gs[j + 1];
      }
    }
  }

  lemma {:induction false} NamesSize(gs: seq<GroupName>)
    ensures |Names(gs)| <= |gs|
    ensures |Names(gs)| == |gs| <==> Distinct(gs)
    decreases |gs|
  {
    if gs == [] {
      assert Names(gs) == {};
    } else {
      var g, rest := gs[0], gs[1..];
      NamesSize(rest);
      assert gs == [g] + rest;
      DistinctCons(g, rest);
      assert Names(gs) == {g} + Names(rest);
      if g in rest {
        assert Names(gs) == Names(rest);
      } else {
        assert |Names(gs)| == 1 + |Names(rest)|;
      }
    }
  }

  /** A cancel is fair when the groups it works through are distinct and all hold
      the article.  A caller can check this before the call. */
  ghost predicate FairCancel(db: Db, from: TorId, mid: MsgId, newsgroups: string) {
    var gs := CancelTargets(db, from, mid, newsgroups);
    mid in db.rows ==>
      var v := Visited(gs, db.rows[mid].refs);
      Distinct(v) && forall g | g in v :: g in Holders(db, mid)
  }

  lemma DifferenceExact(a: set<GroupName>, v: seq<GroupName>)
    ensures |a - Names(v)| == |a| - |v| <==> Distinct(v) && forall g | g in v :: g in a
  {
    var n := Names(v);
    NamesSize(v);
    assert |a - n| == |a| - |a * n|;
    SubsetBound(a * n, n);
    if |a * n| == |v| {
      assert a * n == n;
      forall g | g in v ensures g in a {
        assert g in n;
      }
    }
    if Distinct(v) && forall g | g in v :: g in a {
      assert a * n == n;
    }
  }

  lemma CancelLeavesHolders(db: Db, d: Db, mid: MsgId, v: seq<GroupName>, gone: bool)
    requires mid in db.rows && CancelLeaves(db, d, mid, v, gone)
    ensures Holders(d, mid) == Holders(db, mid) - Names(v)
    ensures forall m | m != mid :: Holders(d, m) == Holders(db, m)
  {
    forall m | m != mid ensures Holders(d, m) == Holders(db, m) {
      assert forall g | g in db.groups :: m in d.groups[g].index <==> m in db.groups[g].index;
    }
  }

  lemma FoundFile(db: Db, mid: MsgId)
    requires FilesOk(db) && GetArticleById(db, mid).Found?
    ensures mid in db.rows && GetArticleById(db, mid).article.signature == db.rows[mid].signature
    ensures db.rows[mid].signature in db.files
  {
  }

  /** Either the request is turned down, or the loop runs over the targets. */
  lemma CancelMessageEffect(db: Db, from: TorId, mid: MsgId, newsgroups: string)
    requires FilesOk(db) && Runs(db, CmdCancelMessage(from, mid, newsgroups))
    ensures var gs := CancelTargets(db, from, mid, newsgroups);
            var d := CancelMessage(db, from, mid, newsgroups, AsWritten).0;
            && (gs == [] ==> d == db)
            && (gs != [] ==>
                  && HasFile(db, mid)
                  && CancelLeaves(db, d, mid, Visited(gs, db.rows[mid].refs), Gone(gs, db.rows[mid].refs)))
  {
    var gs := CancelTargets(db, from, mid, newsgroups);
    if gs != [] {
      FoundFile(db, mid);
      CancelGroupsEffect(db, gs, mid, db.rows[mid].signature);
    }
  }

  /** A cancel keeps the reference count of its article right exactly when it is
      fair: a repeated group, or one that does not hold the article, costs a
      reference that no index gives back. */
  lemma CancelRefsExact(db: Db, from: TorId, mid: MsgId, newsgroups: string)
    requires FilesOk(db) && RefsOk(db) && Runs(db, CmdCancelMessage(from, mid, newsgroups))
    ensures RefsExact(CancelMessage(db, from, mid, newsgroups, AsWritten).0, mid)
            <==> FairCancel(db, from, mid, newsgroups)
  {
    var gs := CancelTargets(db, from, mid, newsgroups);
    var d := CancelMessage(db, from, mid, newsgroups, AsWritten).0;
    CancelMessageEffect(db, from, mid, newsgroups);
    if gs != [] {
      var v := Visited(gs, db.rows[mid].refs);
      CancelLeavesHolders(db, d, mid, v, Gone(gs, db.rows[mid].refs));
      DifferenceExact(Holders(db, mid), v);
      assert RefsExact(db, mid);
    } else if mid in db.rows {
      assert RefsExact(db, mid);
    }
  }

  /** Only reference counts differ. */
  ghost predicate SameRows(a: map<MsgId, Row>, b: map<MsgId, Row>) {
    a.Keys == b.Keys && forall m | m in a :: b[m].id == a[m].id && b[m].signature == a[m].signature
  }

  lemma SameRowsOk(db: Db, d: Db)
    requires RowsOk(db) && SameRows(db.rows, d.rows) && d.lastId == db.lastId
    ensures RowsOk(d)
  {
    forall m, n | m in d.rows && n in d.rows
      ensures d.rows[m].id == d.rows[n].id ==> m == n
      ensures d.rows[m].signature == d.rows[n].signature ==> m == n
    {
      assert m in db.rows && n in db.rows;
    }
  }

  lemma FewerFilesOk(db: Db, d: Db)
    requires FilesOk(db) && SameRows(db.rows, d.rows)
    requires forall s | s in d.files :: s in db.files && d.files[s] == db.files[s]
    ensures FilesOk(d)
  {
    forall s | s in d.files
      ensures d.files[s].signature == s
      ensures d.files[s].messageId in d.rows && d.rows[d.files[s].messageId].signature == s
    {
      assert s in db.files && db.files[s].messageId in db.rows;
    }
  }

  lemma CancelFilesKept(db: Db, d: Db, mid: MsgId, v: seq<GroupName>, gone: bool)
    requires mid in db.rows && CancelLeaves(db, d, mid, v, gone) && RowsOk(db) && SameRows(db.rows, d.rows)
    ensures forall m | m != mid :: HasFile(d, m) <==> HasFile(db, m)
  {
    forall m | m != mid ensures HasFile(d, m) <==> HasFile(db, m) {
      if m in db.rows {
        assert db.rows[m].signature != db.rows[mid].signature;
      }
    }
  }

  lemma CancelRowsFilesOk(db: Db, d: Db, mid: MsgId, v: seq<GroupName>, gone: bool)
    requires mid in db.rows && CancelLeaves(db, d, mid, v, gone) && RowsOk(db) && FilesOk(db)
    ensures RowsOk(d) && FilesOk(d)
    ensures forall m | m != mid :: HasFile(d, m) <==> HasFile(db, m)
  {
    assert SameRows(db.rows, d.rows);
    SameRowsOk(db, d);
    FewerFilesOk(db, d);
    CancelFilesKept(db, d, mid, v, gone);
  }

  lemma CancelIndexesOk(db: Db, d: Db, mid: MsgId, v: seq<GroupName>, gone: bool)
    requires mid in db.rows && CancelLeaves(db, d, mid, v, gone)
    requires IndexesOk(db) && IndexedFilesOk(db)
    requires forall m | m != mid :: HasFile(d, m) <==> HasFile(db, m)
    requires Holders(d, mid) != {} ==> !gone
    ensures IndexesOk(d) && IndexedFilesOk(d)
  {
    forall g, m | g in d.groups && m in d.groups[g].index
      ensures m in d.rows && d.groups[g].index[m] == d.rows[m].id && HasFile(d, m)
    {
      assert m in db.groups[g].index && HasFile(db, m);
      if m == mid {
        assert g in Holders(d, mid);
      }
    }
  }

  /** What a cancel may have done to mid when it was fair. */
  ghost predicate FairOutcome(db: Db, d: Db, mid: MsgId) {
    && d.rows.Keys == db.rows.Keys && d.groups.Keys == db.groups.Keys && d.lastId == db.lastId
    && (forall m | m != mid :: Holders(d, m) == Holders(db, m) && (HasFile(d, m) <==> HasFile(db, m)))
    && Holders(d, mid) <= Holders(db, mid)
    && (HasFile(d, mid) <==> HasFile(db, mid) && (Holders(d, mid) != {} || Holders(db, mid) == {}))
  }

  lemma FairLeavesCount(db: Db, d: Db, mid: MsgId, v: seq<GroupName>, gone: bool)
    requires mid in db.rows && RefsExact(db, mid) && CancelLeaves(db, d, mid, v, gone)
    requires v != [] && Distinct(v) && forall g | g in v :: g in Holders(db, mid)
    requires gone <==> |v| == db.rows[mid].refs
    ensures RefsExact(d, mid) && Holders(db, mid) != {}
    ensures gone <==> Holders(d, mid) == {}
    ensures Holders(d, mid) <= Holders(db, mid)
    ensures forall m | m != mid :: Holders(d, m) == Holders(db, m)
  {
    CancelLeavesHolders(db, d, mid, v, gone);
    DifferenceExact(Holders(db, mid), v);
    assert v[0] in Holders(db, mid);
  }

  lemma FairLeavesValid(db: Db, d: Db, mid: MsgId, v: seq<GroupName>, gone: bool)
    requires Valid(db) && mid in db.rows && CancelLeaves(db, d, mid, v, gone)
    requires RefsExact(d, mid) && (Holders(d, mid) != {} ==> !gone)
    requires forall m | m != mid :: Holders(d, m) == Holders(db, m)
    ensures Valid(d)
    ensures forall m | m != mid :: HasFile(d, m) <==> HasFile(db, m)
  {
    CancelRowsFilesOk(db, d, mid, v, gone);
    CancelIndexesOk(db, d, mid, v, gone);
    SameIndexesRefs(db, d, mid);
  }

  lemma FairLeaves(db: Db, d: Db, mid: MsgId, v: seq<GroupName>, gone: bool)
    requires Valid(db) && HasFile(db, mid) && CancelLeaves(db, d, mid, v, gone)
    requires v != [] && Distinct(v) && forall g | g in v :: g in Holders(db, mid)
    requires gone <==> |v| == db.rows[mid].refs
    ensures Valid(d) && FairOutcome(db, d, mid)
  {
    FairLeavesCount(db, d, mid, v, gone);
    FairLeavesValid(db, d, mid, v, gone);
    FairLeavesFile(db, d, mid, v, gone);
  }

  lemma FairLeavesFile(db: Db, d: Db, mid: MsgId, v: seq<GroupName>, gone: bool)
    requires HasFile(db, mid) && CancelLeaves(db, d, mid, v, gone)
    ensures HasFile(d, mid) <==> !gone
  {
  }

  /** A fair cancel keeps the whole invariant and every other article's groups and
      file, only ever takes the article out of groups, and removes its file
      exactly when that leaves it in no group; its row stays either way. */
  lemma CancelMessageValid(db: Db, from: TorId, mid: MsgId, newsgroups: string)
    requires Valid(db) && Runs(db, CmdCancelMessage(from, mid, newsgroups))
    requires FairCancel(db, from, mid, newsgroups)
    ensures var d := CancelMessage(db, from, mid, newsgroups, AsWritten).0;
            Valid(d) && FairOutcome(db, d, mid)
  {
    var gs := CancelTargets(db, from, mid, newsgroups);
    CancelMessageEffect(db, from, mid, newsgroups);
    if gs != [] {
      var refs := db.rows[mid].refs;
      assert RefsExact(db, mid);
      var v := Visited(gs, refs);
      assert v != [] && v[0] in Holders(db, mid);
      if |v| == refs {
        assert Gone(gs, refs);
      }
      FairLeaves(db, CancelMessage(db, from, mid, newsgroups, AsWritten).0, mid, v, Gone(gs, refs));
    }
  }
}
