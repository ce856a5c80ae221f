/** The article store and the two halves of the relay refine the node, the offer
    and the delivery that the flood is made of. */
module Refinement {
  import opened Options
  import opened Text
  import D = ArticleDb
  import opened ArticleRefs
  import opened Peering
  import B = Backend
  import F = Flood

  /** The hosts a Path header lists. */
  function PathOf(header: string): seq<F.NodeId> {
    if header == "" then [] else Split(header, '!')
  }

  ghost predicate RowShown(db: D.Db, n: F.Node, m: D.MsgId)
    requires m in db.rows
  {
    && HasFile(db, m) && 0 < db.rows[m].id && db.rows[m].id in n.arts
    && db.files[db.rows[m].signature].messageId == m && db.files[db.rows[m].signature].path != ""
    && n.arts[db.rows[m].id] == F.Copy(m, PathOf(db.files[db.rows[m].signature].path))
  }

  /** n is the database as the flood sees it: every row under its number, with the
      Path its file has. */
  ghost predicate Represents(db: D.Db, n: F.Node) {
    && n.last == db.lastId
    && (forall m | m in db.rows :: RowShown(db, n, m))
    && (forall k | k in n.arts :: n.arts[k].mid in db.rows && db.rows[n.arts[k].mid].id == k)
  }

  /** An article as the flood sees it. */
  function CopyOf(a: D.Article): F.Copy {
    F.Copy(a.messageId, PathOf(a.path))
  }

  lemma RepresentsHolds(db: D.Db, n: F.Node, m: D.MsgId)
    requires Represents(db, n)
    ensures F.HoldsIn(n.arts, m) <==> m in db.rows
  {
    if m in db.rows {
      assert n.arts[db.rows[m].id].mid == m;
    }
  }

  // ---- receiving ------------------------------------------------------------

  lemma NewPathIs(me: D.TorId, mode: B.ConnMode, path: string)
    requires '!' !in me
    ensures var p := B.NewPath(me, mode, path);
            if mode.Local? then p.Some? && p.value != "" && PathOf(p.value) == [me, F.POSTED] + PathOf(path)
            else if path == "" then p.None?
            else p.Some? && p.value != "" && PathOf(p.value) == [me] + PathOf(path)
  {
    if mode.Local? {
      assert me + "!.POSTED" == me + ['!'] + ".POSTED";
      SplitPrefix(me, ".POSTED", '!');
      SplitPlain(".POSTED", '!');
      assert me + "!.POSTED!" + path == me + ['!'] + (".POSTED" + ['!'] + path);
      SplitPrefix(me, ".POSTED" + ['!'] + path, '!');
      SplitPrefix(".POSTED", path, '!');
      assert [me] + ([F.POSTED] + Split(path, '!')) == [me, F.POSTED] + Split(path, '!');
    } else {
      assert me + "!" + path == me + ['!'] + path;
      SplitPrefix(me, path, '!');
    }
  }

  /** Filing an article is the flood's delivery: refused without a group to file
      it in, a duplicate when it is stored already, and otherwise stored under the
      next number with exactly the Path it was given. */
  lemma FilingRefinesDelivery(db: D.Db, d: D.Db, a: D.Article, id: D.TorId, out: B.Outcome, n: F.Node)
    requires Represents(db, n) && RowsOk(db) && FreshSignature(db, a) && a.path != ""
    requires B.Filed(db, d, a, id, out)
    ensures out.Posted? <==> B.Postable(db, id, a.newsgroups) != {} && !F.HoldsIn(n.arts, a.messageId)
    ensures out.Posted? ==> Represents(d, F.File(n, F.Copy(a.messageId, PathOf(a.path))))
    ensures !out.Posted? ==> Represents(d, n)
  {
    RepresentsHolds(db, n, a.messageId);
    if out.Posted? {
      FiledRepresents(db, d, a, B.Postable(db, id, a.newsgroups), out.id, n);
    }
  }

  lemma FiledRepresents(db: D.Db, d: D.Db, a: D.Article, gs: set<D.GroupName>, id: int, n: F.Node)
    requires Represents(db, n) && RowsOk(db) && FreshSignature(db, a) && a.path != ""
    requires a.messageId !in db.rows && B.FiledIn(db, d, a, gs, id)
    ensures Represents(d, F.File(n, F.Copy(a.messageId, PathOf(a.path))))
  {
    var t := F.File(n, F.Copy(a.messageId, PathOf(a.path)));
    forall m | m in d.rows ensures RowShown(d, t, m) {
      if m == a.messageId {
        NewRowShown(db, d, a, gs, id, n);
      } else {
        assert m in db.rows && RowShown(db, n, m);
        RowStaysShown(db, d, a, gs, id, n, m);
      }
    }
    FiledNumbers(db, d, a, gs, id, n);
  }

  lemma NewRowShown(db: D.Db, d: D.Db, a: D.Article, gs: set<D.GroupName>, id: int, n: F.Node)
    requires n.last == db.lastId && a.path != "" && B.FiledIn(db, d, a, gs, id)
    ensures RowShown(d, F.File(n, F.Copy(a.messageId, PathOf(a.path))), a.messageId)
  {
  }

  lemma FiledNumbers(db: D.Db, d: D.Db, a: D.Article, gs: set<D.GroupName>, id: int, n: F.Node)
    requires n.last == db.lastId && a.messageId !in db.rows && B.FiledIn(db, d, a, gs, id)
    requires forall k | k in n.arts :: n.arts[k].mid in db.rows && db.rows[n.arts[k].mid].id == k
    ensures var t := F.File(n, F.Copy(a.messageId, PathOf(a.path)));
            forall k | k in t.arts :: t.arts[k].mid in d.rows && d.rows[t.arts[k].mid].id == k
  {
  }

  lemma RowStaysShown(db: D.Db, d: D.Db, a: D.Article, gs: set<D.GroupName>, id: int, n: F.Node, m: D.MsgId)
    requires m in db.rows && m != a.messageId && RowShown(db, n, m) && db.rows[m].id <= db.lastId == n.last
    requires FreshSignature(db, a) && B.FiledIn(db, d, a, gs, id)
    ensures RowShown(d, F.File(n, F.Copy(a.messageId, PathOf(a.path))), m)
  {
  }

  /** The bump at restart is the flood's. */
  lemma ReopenRefinesRestart(db: D.Db, n: F.Node, now: nat)
    requires Represents(db, n) && D.Reopen(db, now).Some?
    ensures now !in n.arts
    ensures Represents(D.Reopen(db, now).value, n.(last := if now > n.last then now else n.last))
  {
  }

  // ---- sending --------------------------------------------------------------

  lemma NextRefines(db: D.Db, n: F.Node, c: nat)
    requires Represents(db, n) && RowsOk(db)
    ensures var r := D.GetNextArticle(db, c);
            if r.Found? then
              && r.num > 0 && F.IsNext(n.arts, c, r.num) && r.article.path != ""
              && n.arts[r.num] == CopyOf(r.article)
            else forall k | k in n.arts :: k <= c
  {
    if m :| D.IsNextRow(db, c, m) {
      assert RowShown(db, n, m);
      RowIsNext(db, n, c, m);
      NextRowFound(db, c, m);
    } else {
      forall k | k in n.arts ensures k <= c {
        if k > c {
          NextRowAbove(db, c, n.arts[k].mid);
        }
      }
    }
  }

  lemma RowIsNext(db: D.Db, n: F.Node, c: nat, m: D.MsgId)
    requires Represents(db, n) && D.IsNextRow(db, c, m) && 0 < db.rows[m].id && db.rows[m].id in n.arts
    ensures F.IsNext(n.arts, c, db.rows[m].id)
  {
    forall k | k in n.arts && c < k ensures db.rows[m].id <= k {
      assert db.rows[n.arts[k].mid].id == k;
    }
  }

  lemma NextRowFound(db: D.Db, c: int, m: D.MsgId)
    requires RowsOk(db) && D.IsNextRow(db, c, m) && HasFile(db, m)
    ensures D.GetNextArticle(db, c) == D.Found(db.rows[m].id, db.files[db.rows[m].signature])
  {
    forall k | D.IsNextRow(db, c, k) ensures k == m {
      assert db.rows[k].id == db.rows[m].id;
    }
  }

  lemma {:induction false} NextRowAbove(db: D.Db, c: int, m: D.MsgId)
    requires RowsOk(db) && m in db.rows && c < db.rows[m].id
    ensures exists k :: D.IsNextRow(db, c, k)
    decreases db.rows[m].id - c
  {
    if k :| k in db.rows && c < db.rows[k].id < db.rows[m].id {
      NextRowAbove(db, c, k);
    } else {
      assert D.IsNextRow(db, c, m);
    }
  }

  /** One turn of SendMessages is the flood's offer of the first article above the
      cursor: skipped for its Path, skipped for want of permission, or attempted,
      and in the first two cases with the cursor moved to its number. */
  lemma TurnRefinesOffer(db: D.Db, n: F.Node, g: D.GroupName, l: F.Link)
    requires Represents(db, n) && RowsOk(db) && g in db.groups
    requires D.GroupConfigGetInt64(db, g, "LastMessage") == D.Number(l.cursor) && l.phase.Idle?
    ensures var turn := NextTurn(db, true, g, l.dst);
            match turn
            case Idle => forall k | k in n.arts :: k <= l.cursor
            case SkippedPath(num) =>
              num > 0 && F.IsNext(n.arts, l.cursor, num)
              && forall readable :: F.Offer(l, num, n.arts[num], readable) == F.Advance(l, num, F.PathSkipped)
            case SkippedPerms(num) =>
              num > 0 && F.IsNext(n.arts, l.cursor, num)
              && F.Offer(l, num, n.arts[num], false) == F.Advance(l, num, F.PermSkipped)
            case Attempted(num, a) =>
              num > 0 && F.IsNext(n.arts, l.cursor, num) && Readable(db, l.dst, a.newsgroups)
              && n.arts[num] == CopyOf(a) && a.path != ""
              && F.Offer(l, num, n.arts[num], true)
                 == l.(phase := F.Sent(num, CopyOf(a)), attempts := F.Bump(l.attempts, num))
  {
    NextRefines(db, n, l.cursor);
  }
}
