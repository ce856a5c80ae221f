/** What every reachable state of the flood keeps: the accounting of every
    cursor, the soundness of the Path skip, and Paths that are real routes. */
module FloodSafety {
  import opened Flood

  // ---- the invariant --------------------------------------------------------

  ghost predicate NodeOk(n: Node, posted: set<MsgId>) {
    && (forall k | k in n.arts :: 0 < k <= n.last)
    && (forall k | k in n.arts :: n.arts[k].mid in posted)
    && (forall j, k | j in n.arts && k in n.arts && n.arts[j].mid == n.arts[k].mid :: j == k)
    && (forall k | k in n.arts :: n.arts[k].path != [])
  }

  ghost predicate NodesOk(s: Net) {
    forall n | n in s.nodes :: NodeOk(s.nodes[n], s.posted)
  }

  predicate Tried(v: Verdict) {
    v.Stored? || v.Duplicate? || v.Refused? || v.Failed?
  }

  predicate Pending(l: Link, num: nat) {
    !l.phase.Idle? && l.phase.num == num
  }

  /** 1 when the link's one uninterrupted attempt at num is under way or decided. */
  function Settled(l: Link, num: nat): nat {
    if Pending(l, num) || (num in l.verdicts && Tried(l.verdicts[num])) then 1 else 0
  }

  /** Cursor accounting for one link, given the articles of its source. */
  ghost predicate Accounted(l: Link, arts: map<nat, Copy>) {
    && (forall num :: num in l.verdicts <==> num in arts && num <= l.cursor)
    && (forall num :: Count(l.attempts, num) == Count(l.interrupted, num) + Settled(l, num))
  }

  ghost predicate VerdictOk(s: Net, l: Link, c: Copy, v: Verdict) {
    && (v.PathSkipped? <==> l.dst in c.path)
    && (v.Stored? || v.Duplicate? ==> Holds(s, l.dst, c.mid))
  }

  ghost predicate LinkOk(s: Net, l: Link) {
    && l.src in s.nodes && l.dst in s.nodes && l.src != l.dst
    && l.cursor <= s.nodes[l.src].last
    && (!l.up ==> l.phase.Idle?)
    && Accounted(l, s.nodes[l.src].arts)
    && (forall num | num in l.verdicts && num in s.nodes[l.src].arts ::
          VerdictOk(s, l, s.nodes[l.src].arts[num], l.verdicts[num]))
    && (!l.phase.Idle? ==>
          && IsNext(s.nodes[l.src].arts, l.cursor, l.phase.num)
          && s.nodes[l.src].arts[l.phase.num] == l.phase.copy
          && l.dst !in l.phase.copy.path)
    && (l.phase.Answered? ==>
          && (l.phase.verdict.Stored? || l.phase.verdict.Duplicate? || l.phase.verdict.Refused?)
          && VerdictOk(s, l, l.phase.copy, l.phase.verdict))
  }

  ghost predicate LooseOk(s: Net, c: Loose) {
    && c.src in s.nodes && c.dst in s.nodes
    && HasLink(s, c.src, c.dst)
    && c.num in s.nodes[c.src].arts && s.nodes[c.src].arts[c.num] == c.copy
    && c.dst !in c.copy.path
  }

  ghost predicate Ok(s: Net) {
    && POSTED !in s.nodes
    && NodesOk(s)
    && (forall l | l in s.links :: LinkOk(s, l))
    && (forall c | c in s.loose :: LooseOk(s, c))
    && (forall o | o in s.origins :: Holds(s, o.0, o.1))
  }

  // ---- stores only grow, and only upwards -----------------------------------

  ghost predicate NodeGrows(a: Node, b: Node) {
    && a.last <= b.last
    && (forall k | k in a.arts :: k in b.arts && b.arts[k] == a.arts[k])
    && (forall k | k in b.arts && k !in a.arts :: a.last < k)
  }

  ghost predicate Grows(s: Net, t: Net) {
    && s.nodes.Keys == t.nodes.Keys
    && (forall n | n in s.nodes :: NodeGrows(s.nodes[n], t.nodes[n]))
    && s.posted <= t.posted
    && (forall a, b | HasLink(s, a, b) :: HasLink(t, a, b))
  }

  lemma HoldsGrows(s: Net, t: Net, n: NodeId, m: MsgId)
    requires Grows(s, t) && Holds(s, n, m)
    ensures Holds(t, n, m)
  {
    var num :| num in s.nodes[n].arts && s.nodes[n].arts[num].mid == m;
    assert num in t.nodes[n].arts && t.nodes[n].arts[num].mid == m;
  }

  lemma NextGrows(a: Node, b: Node, c: nat, num: nat)
    requires NodeGrows(a, b) && IsNext(a.arts, c, num) && num <= a.last
    ensures IsNext(b.arts, c, num)
  {
  }

  lemma AccountedGrows(l: Link, a: Node, b: Node)
    requires NodeGrows(a, b) && Accounted(l, a.arts) && l.cursor <= a.last
    ensures Accounted(l, b.arts)
  {
    forall num ensures num in l.verdicts <==> num in b.arts && num <= l.cursor {
      if num in b.arts && num !in a.arts {
        assert a.last < num;
      }
    }
  }

  lemma LinkOkGrows(s: Net, t: Net, l: Link)
    requires Grows(s, t) && NodesOk(s) && LinkOk(s, l)
    ensures LinkOk(t, l)
  {
    var a, b := s.nodes[l.src], t.nodes[l.src];
    AccountedGrows(l, a, b);
    if !l.phase.Idle? {
      NextGrows(a, b, l.cursor, l.phase.num);
    }
    forall num | num in l.verdicts && num in b.arts
      ensures VerdictOk(t, l, b.arts[num], l.verdicts[num])
    {
      assert num in a.arts;
      assert VerdictOk(s, l, a.arts[num], l.verdicts[num]);
      if l.verdicts[num].Stored? || l.verdicts[num].Duplicate? {
        HoldsGrows(s, t, l.dst, a.arts[num].mid);
      }
    }
    if l.phase.Answered? && !l.phase.verdict.Refused? {
      HoldsGrows(s, t, l.dst, l.phase.copy.mid);
    }
  }

  lemma FiledNode(n: Node, c: Copy, posted: set<MsgId>)
    requires NodeOk(n, posted) && c.mid in posted && c.path != [] && !HoldsIn(n.arts, c.mid)
    ensures NodeOk(File(n, c), posted) && NodeGrows(n, File(n, c))
    ensures HoldsIn(File(n, c).arts, c.mid)
  {
    var f := File(n, c);
    assert f.arts[n.last + 1].mid == c.mid;
    forall j, k | j in f.arts && k in f.arts && f.arts[j].mid == f.arts[k].mid ensures j == k {
      if j != n.last + 1 {
        assert n.arts[j].mid != c.mid;
      }
      if k != n.last + 1 {
        assert n.arts[k].mid != c.mid;
      }
    }
  }

  /** Everything a step does not replace stays as good as it was. */
  lemma OkGrows(s: Net, t: Net)
    requires Ok(s) && Grows(s, t) && NodesOk(t)
    ensures POSTED !in t.nodes
    ensures forall l | l in s.links :: LinkOk(t, l)
    ensures forall c | c in s.loose :: LooseOk(t, c)
    ensures forall o | o in s.origins :: Holds(t, o.0, o.1)
  {
    forall l | l in s.links ensures LinkOk(t, l) {
      LinkOkGrows(s, t, l);
    }
    forall o | o in s.origins ensures Holds(t, o.0, o.1) {
      HoldsGrows(s, t, o.0, o.1);
    }
  }

  /** Replacing a link by one with the same ends keeps the link graph. */
  lemma LinkGraphKept(s: Net, t: Net, i: nat)
    requires i < |s.links| == |t.links|
    requires t.links[i].src == s.links[i].src && t.links[i].dst == s.links[i].dst
    requires forall j | 0 <= j < |s.links| && j != i :: t.links[j] == s.links[j]
    ensures forall a, b :: HasLink(s, a, b) <==> HasLink(t, a, b)
  {
    forall a, b ensures HasLink(s, a, b) <==> HasLink(t, a, b) {
      if HasLink(s, a, b) {
        var l :| l in s.links && l.src == a && l.dst == b;
        var j :| 0 <= j < |s.links| && s.links[j] == l;
        assert t.links[j] in t.links && t.links[j].src == a && t.links[j].dst == b;
      }
      if HasLink(t, a, b) {
        var l :| l in t.links && l.src == a && l.dst == b;
        var j :| 0 <= j < |t.links| && t.links[j] == l;
        assert s.links[j] in s.links && s.links[j].src == a && s.links[j].dst == b;
      }
    }
  }

  // ---- delivery -------------------------------------------------------------

  lemma DeliverOk(s: Net, src: NodeId, dst: NodeId, num: nat)
    requires NodesOk(s) && src in s.nodes && dst in s.nodes && num in s.nodes[src].arts
    ensures var c := s.nodes[src].arts[num];
            var t := Deliver(s, src, dst, c);
            && Grows(s, t) && NodesOk(t)
            && (Judge(s, src, dst, c).Refused? || Holds(t, dst, c.mid))
  {
    var c := s.nodes[src].arts[num];
    if Judge(s, src, dst, c).Stored? {
      FiledNode(s.nodes[dst], Copy(c.mid, [dst] + c.path), s.posted);
    }
  }

  lemma DeliverFrame(s: Net, src: NodeId, dst: NodeId, c: Copy)
    requires dst in s.nodes
    ensures Deliver(s, src, dst, c) == s.(nodes := Deliver(s, src, dst, c).nodes)
  {
  }

  // ---- each step ------------------------------------------------------------

  lemma LocalPostGrows(s: Net, n: NodeId, mid: MsgId, path: seq<NodeId>)
    requires NodesOk(s) && Enabled(s, LocalPost(n, mid, path))
    ensures var t := Next(s, LocalPost(n, mid, path));
            Grows(s, t) && NodesOk(t) && Holds(t, n, mid)
  {
    var t := Next(s, LocalPost(n, mid, path));
    forall x | x in s.nodes ensures NodeOk(s.nodes[x], t.posted) {
      assert NodeOk(s.nodes[x], s.posted);
    }
    FiledNode(s.nodes[n], Copy(mid, [n, POSTED] + path), t.posted);
    assert t.links == s.links;
    assert forall a, b | HasLink(s, a, b) :: HasLink(t, a, b);
  }

  lemma LocalPostOk(s: Net, n: NodeId, mid: MsgId, path: seq<NodeId>)
    requires Ok(s) && Enabled(s, LocalPost(n, mid, path))
    ensures Ok(Next(s, LocalPost(n, mid, path))) && Grows(s, Next(s, LocalPost(n, mid, path)))
  {
    var t := Next(s, LocalPost(n, mid, path));
    LocalPostGrows(s, n, mid, path);
    OkGrows(s, t);
    assert t.origins == s.origins + {(n, mid)};
  }

  lemma AddLinkOk(s: Net, a: NodeId, b: NodeId)
    requires Ok(s) && Enabled(s, AddLink(a, b))
    ensures Ok(Next(s, AddLink(a, b))) && Grows(s, Next(s, AddLink(a, b)))
  {
    var t := Next(s, AddLink(a, b));
    forall x, y | HasLink(s, x, y) ensures HasLink(t, x, y) {
      var l :| l in s.links && l.src == x && l.dst == y;
      assert l in t.links;
    }
    OkGrows(s, t);
    var added := Link(a, b, false, 0, Idle, map[], map[], map[]);
    assert LinkOk(t, added);
    forall l | l in t.links ensures LinkOk(t, l) {
      assert l in s.links || l == added;
    }
  }

  /** A step that replaces link i by l' over possibly grown stores. */
  lemma ReplaceLinkOk(s: Net, t: Net, i: nat, l': Link)
    requires Ok(s) && Grows(s, t) && NodesOk(t) && i < |s.links|
    requires t.links == s.links[i := l']
    requires l'.src == s.links[i].src && l'.dst == s.links[i].dst
    requires LinkOk(t, l')
    requires forall c | c in t.loose :: c in s.loose || LooseOk(t, c)
    requires t.origins == s.origins
    ensures Ok(t)
  {
    OkGrows(s, t);
    UpdatedLinks(s.links, i, l');
  }

  lemma UpdatedLinks(links: seq<Link>, i: nat, l': Link)
    requires i < |links|
    ensures forall l | l in links[i := l'] :: l in links || l == l'
  {
  }

  lemma SameStoresGrow(s: Net, t: Net, i: nat, l': Link)
    requires NodesOk(s) && i < |s.links|
    requires t.nodes == s.nodes && t.posted == s.posted && t.links == s.links[i := l']
    requires l'.src == s.links[i].src && l'.dst == s.links[i].dst
    ensures Grows(s, t) && NodesOk(t)
    ensures HasLink(t, l'.src, l'.dst)
  {
    LinkGraphKept(s, t, i);
    assert l' == t.links[i];
  }

  lemma AdvanceAccounted(l: Link, arts: map<nat, Copy>, num: nat, v: Verdict)
    requires Accounted(l, arts) && IsNext(arts, l.cursor, num)
    requires l.phase.Idle? || l.phase.num == num
    requires Tried(v) <==> !l.phase.Idle?
    ensures Accounted(Advance(l, num, v), arts)
  {
    var l' := Advance(l, num, v);
    forall k ensures k in l'.verdicts <==> k in arts && k <= l'.cursor {
      if k in arts && l.cursor < k {
        assert num <= k;
      }
    }
    forall k ensures Count(l'.attempts, k) == Count(l'.interrupted, k) + Settled(l', k) {
      assert Count(l.attempts, k) == Count(l.interrupted, k) + Settled(l, k);
    }
  }

  lemma OfferAccounted(l: Link, arts: map<nat, Copy>, num: nat, readable: bool)
    requires Accounted(l, arts) && IsNext(arts, l.cursor, num) && l.phase.Idle?
    ensures Accounted(Offer(l, num, arts[num], readable), arts)
  {
    var l' := Offer(l, num, arts[num], readable);
    if l'.phase.Idle? {
      AdvanceAccounted(l, arts, num, l'.verdicts[num]);
    } else {
      assert num !in l.verdicts;
      forall k ensures Count(l'.attempts, k) == Count(l'.interrupted, k) + Settled(l', k) {
        assert Count(l.attempts, k) == Count(l.interrupted, k) + Settled(l, k);
      }
    }
  }

  lemma CutAccounted(l: Link, arts: map<nat, Copy>)
    requires Accounted(l, arts)
    requires !l.phase.Idle? ==> l.phase.num !in l.verdicts
    ensures Accounted(Cut(l), arts)
  {
    var l' := Cut(l);
    forall k ensures Count(l'.attempts, k) == Count(l'.interrupted, k) + Settled(l', k) {
      assert Count(l.attempts, k) == Count(l.interrupted, k) + Settled(l, k);
    }
  }

  lemma OfferLinkOk(s: Net, l: Link, num: nat, readable: bool)
    requires NodesOk(s) && LinkOk(s, l) && l.up && l.phase.Idle?
    requires IsNext(s.nodes[l.src].arts, l.cursor, num)
    ensures LinkOk(s, Offer(l, num, s.nodes[l.src].arts[num], readable))
  {
    OfferAccounted(l, s.nodes[l.src].arts, num, readable);
    OfferVerdictsOk(s, l, num, readable);
  }

  lemma OfferVerdictsOk(s: Net, l: Link, num: nat, readable: bool)
    requires LinkOk(s, l) && num in s.nodes[l.src].arts
    ensures var arts := s.nodes[l.src].arts;
            var l' := Offer(l, num, arts[num], readable);
            forall k | k in l'.verdicts && k in arts :: VerdictOk(s, l', arts[k], l'.verdicts[k])
  {
    var arts := s.nodes[l.src].arts;
    var l' := Offer(l, num, arts[num], readable);
    forall k | k in l'.verdicts && k in arts ensures VerdictOk(s, l', arts[k], l'.verdicts[k]) {
      if k in l.verdicts {
        assert VerdictOk(s, l, arts[k], l.verdicts[k]);
      }
    }
  }

  lemma AdvanceLinkOk(s: Net, l: Link, v: Verdict)
    requires NodesOk(s) && LinkOk(s, l) && !l.phase.Idle?
    requires Tried(v) && VerdictOk(s, l, l.phase.copy, v)
    ensures LinkOk(s, Advance(l, l.phase.num, v))
  {
    var arts := s.nodes[l.src].arts;
    AdvanceAccounted(l, arts, l.phase.num, v);
    var l' := Advance(l, l.phase.num, v);
    forall k | k in l'.verdicts && k in arts ensures VerdictOk(s, l', arts[k], l'.verdicts[k]) {
      if k != l.phase.num {
        assert VerdictOk(s, l, arts[k], l.verdicts[k]);
      }
    }
  }

  lemma CutLinkOk(s: Net, l: Link)
    requires LinkOk(s, l)
    ensures LinkOk(s, Cut(l))
  {
    CutAccounted(l, s.nodes[l.src].arts);
    var l', arts := Cut(l), s.nodes[l.src].arts;
    forall k | k in l'.verdicts && k in arts ensures VerdictOk(s, l', arts[k], l'.verdicts[k]) {
      assert VerdictOk(s, l, arts[k], l.verdicts[k]);
    }
  }

  lemma ConnectLinkOk(s: Net, l: Link)
    requires LinkOk(s, l)
    ensures LinkOk(s, l.(up := true))
  {
    var l', arts := l.(up := true), s.nodes[l.src].arts;
    forall k ensures Count(l'.attempts, k) == Count(l'.interrupted, k) + Settled(l', k) {
      assert Count(l.attempts, k) == Count(l.interrupted, k) + Settled(l, k);
    }
    forall k | k in l'.verdicts && k in arts ensures VerdictOk(s, l', arts[k], l'.verdicts[k]) {
      assert VerdictOk(s, l, arts[k], l.verdicts[k]);
    }
  }

  lemma PendingLoose(s: Net, l: Link)
    requires LinkOk(s, l) && l in s.links && !l.phase.Idle?
    ensures LooseOk(s, Loose(l.src, l.dst, l.phase.num, l.phase.copy))
  {
  }

  /** A step that only replaces link i, and perhaps leaves its post loose. */
  lemma LinkStepOk(s: Net, t: Net, i: nat, l': Link)
    requires Ok(s) && i < |s.links| && LinkOk(s, l')
    requires t.nodes == s.nodes && t.posted == s.posted && t.origins == s.origins
    requires t.links == s.links[i := l'] && l'.src == s.links[i].src && l'.dst == s.links[i].dst
    requires forall c | c in t.loose :: c in s.loose || LooseOk(s, c)
    ensures Ok(t) && Grows(s, t)
  {
    SameStoresGrow(s, t, i, l');
    LinkOkGrows(s, t, l');
    ReplaceLinkOk(s, t, i, l');
  }

  lemma SendOk(s: Net, i: nat, num: nat)
    requires Ok(s) && Enabled(s, Send(i, num))
    ensures Ok(Next(s, Send(i, num))) && Grows(s, Next(s, Send(i, num)))
  {
    var t, l := Next(s, Send(i, num)), s.links[i];
    assert l in s.links;
    OfferLinkOk(s, l, num, (l.src, l.dst, s.nodes[l.src].arts[num].mid) in s.mayRead);
    LinkStepOk(s, t, i, t.links[i]);
  }

  lemma FinishOk(s: Net, i: nat)
    requires Ok(s) && Enabled(s, Finish(i))
    ensures Ok(Next(s, Finish(i))) && Grows(s, Next(s, Finish(i)))
  {
    var t, l := Next(s, Finish(i)), s.links[i];
    assert l in s.links;
    AdvanceLinkOk(s, l, l.phase.verdict);
    LinkStepOk(s, t, i, t.links[i]);
  }

  lemma FailOk(s: Net, i: nat)
    requires Ok(s) && Enabled(s, Fail(i))
    ensures Ok(Next(s, Fail(i))) && Grows(s, Next(s, Fail(i)))
  {
    var t, l := Next(s, Fail(i)), s.links[i];
    assert l in s.links;
    AdvanceLinkOk(s, l, Failed);
    PendingLoose(s, l);
    LinkStepOk(s, t, i, t.links[i]);
  }

  lemma InterruptOk(s: Net, i: nat)
    requires Ok(s) && Enabled(s, Interrupt(i))
    ensures Ok(Next(s, Interrupt(i))) && Grows(s, Next(s, Interrupt(i)))
  {
    var t, l := Next(s, Interrupt(i)), s.links[i];
    assert l in s.links;
    CutLinkOk(s, l);
    if !l.phase.Idle? {
      PendingLoose(s, l);
    }
    LinkStepOk(s, t, i, t.links[i]);
  }

  lemma ConnectOk(s: Net, i: nat)
    requires Ok(s) && Enabled(s, Connect(i))
    ensures Ok(Next(s, Connect(i))) && Grows(s, Next(s, Connect(i)))
  {
    var t, l := Next(s, Connect(i)), s.links[i];
    assert l in s.links;
    ConnectLinkOk(s, l);
    LinkStepOk(s, t, i, t.links[i]);
  }

  lemma AnsweredLinkOk(s: Net, l: Link, v: Verdict)
    requires NodesOk(s) && LinkOk(s, l) && l.phase.Sent?
    requires v.Refused? || ((v.Stored? || v.Duplicate?) && Holds(s, l.dst, l.phase.copy.mid))
    ensures LinkOk(s, l.(phase := Answered(l.phase.num, l.phase.copy, v)))
  {
    var l' := l.(phase := Answered(l.phase.num, l.phase.copy, v));
    var arts := s.nodes[l.src].arts;
    forall k ensures Count(l'.attempts, k) == Count(l'.interrupted, k) + Settled(l', k) {
      assert Count(l.attempts, k) == Count(l.interrupted, k) + Settled(l, k);
    }
    forall k | k in l'.verdicts && k in arts ensures VerdictOk(s, l', arts[k], l'.verdicts[k]) {
      assert VerdictOk(s, l, arts[k], l.verdicts[k]);
    }
  }

  lemma ReceiveOk(s: Net, i: nat)
    requires Ok(s) && Enabled(s, Receive(i))
    ensures Ok(Next(s, Receive(i))) && Grows(s, Next(s, Receive(i)))
  {
    var t, l := Next(s, Receive(i)), s.links[i];
    assert l in s.links && LinkOk(s, l);
    DeliverOk(s, l.src, l.dst, l.phase.num);
    var d := Deliver(s, l.src, l.dst, l.phase.copy);
    LinkGraphKept(s, t, i);
    GrowsFrom(s, d, t);
    LinkOkGrows(s, t, l);
    var v := Judge(s, l.src, l.dst, l.phase.copy);
    assert v.Refused? || Holds(t, l.dst, l.phase.copy.mid);
    AnsweredLinkOk(t, l, v);
    ReplaceLinkOk(s, t, i, t.links[i]);
  }

  /** t has d's stores and all of s's links. */
  lemma GrowsFrom(s: Net, d: Net, t: Net)
    requires Grows(s, d) && NodesOk(d) && t.nodes == d.nodes && t.posted == d.posted
    requires forall a, b | HasLink(s, a, b) :: HasLink(t, a, b)
    ensures Grows(s, t) && NodesOk(t)
  {
  }

  /** t is s with grown stores and without loose post j. */
  lemma LooseGoneOk(s: Net, d: Net, t: Net, j: nat)
    requires Ok(s) && Grows(s, d) && NodesOk(d) && j < |s.loose|
    requires d.posted == s.posted
    requires t == s.(nodes := d.nodes, loose := s.loose[..j] + s.loose[j + 1..])
    ensures Ok(t) && Grows(s, t)
  {
    assert forall a, b | HasLink(s, a, b) :: HasLink(t, a, b);
    GrowsFrom(s, d, t);
    OkGrows(s, t);
    assert forall x | x in t.loose :: x in s.loose;
  }

  lemma ReceiveLooseOk(s: Net, j: nat)
    requires Ok(s) && Enabled(s, ReceiveLoose(j))
    ensures Ok(Next(s, ReceiveLoose(j))) && Grows(s, Next(s, ReceiveLoose(j)))
  {
    var c := s.loose[j];
    assert c in s.loose && LooseOk(s, c);
    var d := Deliver(s, c.src, c.dst, c.copy);
    assert Grows(s, d) && NodesOk(d) by {
      DeliverOk(s, c.src, c.dst, c.num);
    }
    DeliverFrame(s, c.src, c.dst, c.copy);
    LooseGoneOk(s, d, Next(s, ReceiveLoose(j)), j);
  }

  lemma DropLooseOk(s: Net, j: nat)
    requires Ok(s) && Enabled(s, DropLoose(j))
    ensures Ok(Next(s, DropLoose(j))) && Grows(s, Next(s, DropLoose(j)))
  {
    LooseGoneOk(s, s, Next(s, DropLoose(j)), j);
  }

  lemma RestartGrows(s: Net, n: NodeId, now: nat)
    requires NodesOk(s) && Enabled(s, Restart(n, now))
    ensures NodesOk(Next(s, Restart(n, now))) && Grows(s, Next(s, Restart(n, now)))
  {
    var t := Next(s, Restart(n, now));
    assert t.links == s.links;
    assert forall a, b | HasLink(s, a, b) :: HasLink(t, a, b);
  }

  lemma RestartOk(s: Net, n: NodeId, now: nat)
    requires Ok(s) && Enabled(s, Restart(n, now))
    ensures Ok(Next(s, Restart(n, now))) && Grows(s, Next(s, Restart(n, now)))
  {
    RestartGrows(s, n, now);
    OkGrows(s, Next(s, Restart(n, now)));
  }

  lemma ReconfigureOk(s: Net, r: set<(NodeId, NodeId, MsgId)>, p: set<(NodeId, NodeId, MsgId)>)
    requires Ok(s)
    ensures Ok(Next(s, Reconfigure(r, p))) && Grows(s, Next(s, Reconfigure(r, p)))
  {
    var t := Next(s, Reconfigure(r, p));
    assert t.links == s.links;
    assert forall a, b | HasLink(s, a, b) :: HasLink(t, a, b);
    OkGrows(s, t);
  }

  /** Every step keeps the invariant, and no node ever loses or renumbers an article. */
  lemma StepOk(s: Net, step: Step)
    requires Ok(s) && Enabled(s, step)
    ensures Ok(Next(s, step)) && Grows(s, Next(s, step))
  {
    match step
    case LocalPost(n, mid, path) => LocalPostOk(s, n, mid, path);
    case AddLink(a, b) => AddLinkOk(s, a, b);
    case Reconfigure(r, p) => ReconfigureOk(s, r, p);
    case Interrupt(i) => InterruptOk(s, i);
    case Restart(n, now) => RestartOk(s, n, now);
    case Connect(i) => ConnectOk(s, i);
    case Send(i, num) => SendOk(s, i, num);
    case Receive(i) => ReceiveOk(s, i);
    case Finish(i) => FinishOk(s, i);
    case Fail(i) => FailOk(s, i);
    case ReceiveLoose(j) => ReceiveLooseOk(s, j);
    case DropLoose(j) => DropLooseOk(s, j);
  }
}
