/** Whole runs of the flood: cursor accounting, when skipping a peer named in
    Path is sound, and Paths that are simple routes back to the origin. */
module FloodPaths {
  import opened Flood
  import opened FloodSafety

  // ---- runs -----------------------------------------------------------------

  lemma GrowsTrans(s: Net, t: Net, u: Net)
    requires Grows(s, t) && Grows(t, u)
    ensures Grows(s, u)
  {
    forall n | n in s.nodes ensures NodeGrows(s.nodes[n], u.nodes[n]) {
      assert NodeGrows(s.nodes[n], t.nodes[n]) && NodeGrows(t.nodes[n], u.nodes[n]);
    }
  }

  lemma {:induction false} RunOk(s: Net, steps: seq<Step>)
    requires Ok(s) && IsRun(s, steps)
    ensures Ok(Final(s, steps)) && Grows(s, Final(s, steps))
    decreases |steps|
  {
    if steps != [] {
      var t := Next(s, steps[0]);
      StepOk(s, steps[0]);
      RunOk(t, steps[1..]);
      GrowsTrans(s, t, Final(t, steps[1..]));
    }
  }

  lemma InitOk(s: Net)
    requires Init(s)
    ensures Ok(s)
  {
  }

  /** The articles at or below the cursor are exactly those with a verdict, so
      none was jumped over and none above it is decided; a skipped one was never
      attempted to completion; any other decided one was attempted once, plus
      once for every attempt an interruption cut off before the cursor was
      written. */
  ghost predicate CursorExact(l: Link, arts: map<nat, Copy>) {
    && (forall num :: num in l.verdicts <==> num in arts && num <= l.cursor)
    && (forall num | num in l.verdicts && !Tried(l.verdicts[num]) ::
          Count(l.attempts, num) == Count(l.interrupted, num))
    && (forall num | num in l.verdicts && Tried(l.verdicts[num]) ::
          Count(l.attempts, num) == Count(l.interrupted, num) + 1)
    && (forall num | num > l.cursor && !Pending(l, num) ::
          Count(l.attempts, num) == Count(l.interrupted, num))
  }

  lemma AccountedExact(l: Link, arts: map<nat, Copy>)
    requires Accounted(l, arts) && (!l.phase.Idle? ==> l.phase.num > l.cursor)
    ensures CursorExact(l, arts)
  {
    forall num | num in l.verdicts && !Tried(l.verdicts[num])
      ensures Count(l.attempts, num) == Count(l.interrupted, num)
    {
      assert Settled(l, num) == 0;
    }
    forall num | num in l.verdicts && Tried(l.verdicts[num])
      ensures Count(l.attempts, num) == Count(l.interrupted, num) + 1
    {
      assert Settled(l, num) == 1;
    }
    forall num | num > l.cursor && !Pending(l, num)
      ensures Count(l.attempts, num) == Count(l.interrupted, num)
    {
      assert Settled(l, num) == 0;
    }
  }

  /** Cursor accounting over every run, whatever the interleaving. */
  lemma CursorAccounting(s0: Net, steps: seq<Step>)
    requires Init(s0) && IsRun(s0, steps)
    ensures var s := Final(s0, steps);
            forall l | l in s.links :: l.src in s.nodes && CursorExact(l, s.nodes[l.src].arts)
  {
    InitOk(s0);
    RunOk(s0, steps);
    var s := Final(s0, steps);
    forall l | l in s.links ensures l.src in s.nodes && CursorExact(l, s.nodes[l.src].arts) {
      assert LinkOk(s, l);
      AccountedExact(l, s.nodes[l.src].arts);
    }
  }

  /** Nothing is ever filed at or below a cursor, restarts included. */
  lemma NoLateArticle(s: Net, steps: seq<Step>, l: Link, num: nat)
    requires Ok(s) && IsRun(s, steps) && l in s.links
    requires l.src in Final(s, steps).nodes && num in Final(s, steps).nodes[l.src].arts
    requires num !in s.nodes[l.src].arts
    ensures l.cursor < num
  {
    RunOk(s, steps);
    assert LinkOk(s, l);
    assert NodeGrows(s.nodes[l.src], Final(s, steps).nodes[l.src]);
  }

  // ---- the Path skip --------------------------------------------------------

  /** Every node the Path names already holds the article. */
  ghost predicate CopySound(s: Net, c: Copy) {
    forall x | x in c.path && x in s.nodes :: Holds(s, x, c.mid)
  }

  /** The copies of m, stored and in flight, are sound. */
  ghost predicate SoundFor(s: Net, m: MsgId) {
    && (forall n, k | n in s.nodes && k in s.nodes[n].arts && s.nodes[n].arts[k].mid == m :: CopySound(s, s.nodes[n].arts[k]))
    && (forall l | l in s.links && !l.phase.Idle? && l.phase.copy.mid == m :: CopySound(s, l.phase.copy))
    && (forall c | c in s.loose && c.copy.mid == m :: CopySound(s, c.copy))
  }

  ghost predicate StoresSound(s: Net, m: MsgId) {
    forall n, k | n in s.nodes && k in s.nodes[n].arts && s.nodes[n].arts[k].mid == m :: CopySound(s, s.nodes[n].arts[k])
  }

  /** The Path header a local user brings along with m names no other node that
      lacks m. */
  ghost predicate HonestPost(s: Net, step: Step, m: MsgId) {
    step.LocalPost? && step.mid == m ==>
      forall x | x in step.path && x in s.nodes && x != step.n :: Holds(s, x, m)
  }

  ghost predicate HonestRun(s: Net, steps: seq<Step>, m: MsgId)
    requires IsRun(s, steps)
    decreases |steps|
  {
    steps == [] || (HonestPost(s, steps[0], m) && HonestRun(Next(s, steps[0]), steps[1..], m))
  }

  lemma CopySoundGrows(s: Net, t: Net, c: Copy)
    requires Grows(s, t) && CopySound(s, c)
    ensures CopySound(t, c)
  {
    forall x | x in c.path && x in t.nodes ensures Holds(t, x, c.mid) {
      HoldsGrows(s, t, x, c.mid);
    }
  }

  /** In-flight copies are stored copies, so only new stored articles matter. */
  lemma SoundFromStores(s: Net, m: MsgId)
    requires Ok(s) && StoresSound(s, m)
    ensures SoundFor(s, m)
  {
    forall l | l in s.links && !l.phase.Idle? && l.phase.copy.mid == m ensures CopySound(s, l.phase.copy) {
      assert LinkOk(s, l);
    }
    forall c | c in s.loose && c.copy.mid == m ensures CopySound(s, c.copy) {
      assert LooseOk(s, c);
    }
  }

  lemma DeliverSound(s: Net, t: Net, src: NodeId, dst: NodeId, c: Copy, m: MsgId)
    requires SoundFor(s, m) && Grows(s, t) && dst in s.nodes && (c.mid == m ==> CopySound(s, c))
    requires t.nodes == Deliver(s, src, dst, c).nodes
    ensures StoresSound(t, m)
  {
    var filed := Copy(c.mid, [dst] + c.path);
    forall n, k | n in t.nodes && k in t.nodes[n].arts && t.nodes[n].arts[k].mid == m ensures CopySound(t, t.nodes[n].arts[k]) {
      if k in s.nodes[n].arts && s.nodes[n].arts[k] == t.nodes[n].arts[k] {
        CopySoundGrows(s, t, s.nodes[n].arts[k]);
      } else {
        assert t.nodes[n].arts[k] == filed;
        CopySoundGrows(s, t, c);
        assert HoldsIn(t.nodes[dst].arts, c.mid);
        assert forall x | x in filed.path :: x == dst || x in c.path;
      }
    }
  }

  lemma SameStoresSound(s: Net, t: Net, m: MsgId)
    requires SoundFor(s, m) && Grows(s, t)
    requires forall n | n in t.nodes :: t.nodes[n].arts == s.nodes[n].arts
    ensures StoresSound(t, m)
  {
    forall n, k | n in t.nodes && k in t.nodes[n].arts && t.nodes[n].arts[k].mid == m ensures CopySound(t, t.nodes[n].arts[k]) {
      CopySoundGrows(s, t, s.nodes[n].arts[k]);
    }
  }

  lemma HonestPostSound(s: Net, n: NodeId, mid: MsgId, path: seq<NodeId>, m: MsgId)
    requires POSTED !in s.nodes && SoundFor(s, m)
    requires Enabled(s, LocalPost(n, mid, path)) && HonestPost(s, LocalPost(n, mid, path), m)
    requires Grows(s, Next(s, LocalPost(n, mid, path)))
    ensures StoresSound(Next(s, LocalPost(n, mid, path)), m)
  {
    var t := Next(s, LocalPost(n, mid, path));
    var num := s.nodes[n].last + 1;
    var c := t.nodes[n].arts[num];
    assert HoldsIn(t.nodes[n].arts, mid);
    if mid == m {
      forall x | x in c.path && x in t.nodes ensures Holds(t, x, mid) {
        if x != n {
          assert x in path;
          HoldsGrows(s, t, x, mid);
        }
      }
    }
    forall o, k | o in t.nodes && k in t.nodes[o].arts && t.nodes[o].arts[k].mid == m ensures CopySound(t, t.nodes[o].arts[k]) {
      if k in s.nodes[o].arts && t.nodes[o].arts[k] == s.nodes[o].arts[k] {
        CopySoundGrows(s, t, s.nodes[o].arts[k]);
      } else {
        assert o == n && k == num;
      }
    }
  }

  lemma SoundPostHonest(s: Net, n: NodeId, mid: MsgId, path: seq<NodeId>)
    requires Enabled(s, LocalPost(n, mid, path)) && SoundFor(Next(s, LocalPost(n, mid, path)), mid)
    ensures HonestPost(s, LocalPost(n, mid, path), mid)
  {
    var t := Next(s, LocalPost(n, mid, path));
    var c := t.nodes[n].arts[s.nodes[n].last + 1];
    assert c == Copy(mid, [n, POSTED] + path) && CopySound(t, c);
    forall x | x in path && x in s.nodes && x != n ensures Holds(s, x, mid) {
      assert x in c.path;
      assert Holds(t, x, mid);
      assert t.nodes[x] == s.nodes[x];
    }
  }

  lemma LocalPostSound(s: Net, n: NodeId, mid: MsgId, path: seq<NodeId>, m: MsgId)
    requires Ok(s) && SoundFor(s, m) && Enabled(s, LocalPost(n, mid, path))
    ensures SoundFor(Next(s, LocalPost(n, mid, path)), m) <==> HonestPost(s, LocalPost(n, mid, path), m)
  {
    var step := LocalPost(n, mid, path);
    var t := Next(s, step);
    assert Ok(t) && Grows(s, t) by {
      StepOk(s, step);
    }
    if HonestPost(s, step, m) {
      HonestPostSound(s, n, mid, path, m);
      SoundFromStores(t, m);
    }
    if SoundFor(t, m) && mid == m {
      SoundPostHonest(s, n, mid, path);
    }
  }

  /** A step keeps the Path skip sound for m exactly when it is not a local post
      of m whose own Path header names a node without it. */
  lemma PathsSoundStep(s: Net, step: Step, m: MsgId)
    requires Ok(s) && SoundFor(s, m) && Enabled(s, step)
    ensures SoundFor(Next(s, step), m) <==> HonestPost(s, step, m)
  {
    if step.LocalPost? {
      LocalPostSound(s, step.n, step.mid, step.path, m);
    } else {
      var t := Next(s, step);
      assert Ok(t) && Grows(s, t) by {
        StepOk(s, step);
      }
      OtherStoresSound(s, step, m);
      SoundFromStores(t, m);
    }
  }

  /** For an article that has never been posted the poster can read the condition
      off the header: of all nodes, the Path may name the local one only. */
  lemma NewPostSound(s: Net, n: NodeId, mid: MsgId, path: seq<NodeId>)
    requires Ok(s) && SoundFor(s, mid) && Enabled(s, LocalPost(n, mid, path)) && mid !in s.posted
    ensures SoundFor(Next(s, LocalPost(n, mid, path)), mid) <==> forall x | x in path && x in s.nodes :: x == n
  {
    LocalPostSound(s, n, mid, path, mid);
    forall x | x in s.nodes ensures !Holds(s, x, mid) {
      assert NodeOk(s.nodes[x], s.posted);
    }
  }

  lemma OtherStoresSound(s: Net, step: Step, m: MsgId)
    requires SoundFor(s, m) && Enabled(s, step) && !step.LocalPost? && Grows(s, Next(s, step))
    ensures StoresSound(Next(s, step), m)
  {
    var t := Next(s, step);
    match step {
      case Receive(i) =>
        assert s.links[i] in s.links;
        DeliverSound(s, t, s.links[i].src, s.links[i].dst, s.links[i].phase.copy, m);
      case ReceiveLoose(j) =>
        assert s.loose[j] in s.loose;
        DeliverSound(s, t, s.loose[j].src, s.loose[j].dst, s.loose[j].copy, m);
      case _ => SameStoresSound(s, t, m);
    }
  }

  lemma {:induction false} RunSound(s: Net, steps: seq<Step>, m: MsgId)
    requires Ok(s) && SoundFor(s, m) && IsRun(s, steps) && HonestRun(s, steps, m)
    ensures SoundFor(Final(s, steps), m)
    decreases |steps|
  {
    if steps != [] {
      StepOk(s, steps[0]);
      PathsSoundStep(s, steps[0], m);
      RunSound(Next(s, steps[0]), steps[1..], m);
    }
  }

  /** In every state a run reaches, a peer that was skipped for m because the Path
      names it does hold m, whatever Paths other articles were posted with. */
  lemma PathSkipSound(s0: Net, steps: seq<Step>, m: MsgId)
    requires Init(s0) && IsRun(s0, steps) && HonestRun(s0, steps, m)
    ensures var s := Final(s0, steps);
            && SoundFor(s, m)
            && (forall l, num | l in s.links && l.src in s.nodes && num in l.verdicts && num in s.nodes[l.src].arts
                  && s.nodes[l.src].arts[num].mid == m && l.verdicts[num].PathSkipped? :: Holds(s, l.dst, m))
  {
    InitOk(s0);
    RunOk(s0, steps);
    RunSound(s0, steps, m);
    var s := Final(s0, steps);
    forall l, num | l in s.links && l.src in s.nodes && num in l.verdicts && num in s.nodes[l.src].arts
      && s.nodes[l.src].arts[num].mid == m && l.verdicts[num].PathSkipped? ensures Holds(s, l.dst, m) {
      assert LinkOk(s, l);
      assert VerdictOk(s, l, s.nodes[l.src].arts[num], l.verdicts[num]);
      assert CopySound(s, s.nodes[l.src].arts[num]);
    }
  }

  // ---- Paths are routes -----------------------------------------------------

  /** The hosts of a Path in front of the trailing `.POSTED`. */
  function Hosts(path: seq<NodeId>): seq<NodeId>
    requires path != []
  {
    path[..|path| - 1]
  }

  /** path leads from n, over distinct nodes and existing links, to a node where
      mid was posted, and ends in `.POSTED`. */
  ghost predicate IsRoute(s: Net, n: NodeId, c: Copy) {
    var p := c.path;
    && |p| >= 2 && p[0] == n && p[|p| - 1] == POSTED
    && (forall x | x in Hosts(p) :: x in s.nodes)
    && (forall i, j | 0 <= i < j < |p| :: p[i] != p[j])
    && (forall i | 0 <= i < |p| - 2 :: HasLink(s, p[i + 1], p[i]))
    && (p[|p| - 2], c.mid) in s.origins
  }

  ghost predicate RoutesOk(s: Net) {
    forall n, k | n in s.nodes && k in s.nodes[n].arts :: IsRoute(s, n, s.nodes[n].arts[k])
  }

  ghost predicate PlainPosts(steps: seq<Step>) {
    forall step | step in steps && step.LocalPost? :: step.path == []
  }

  lemma RouteGrows(s: Net, t: Net, n: NodeId, c: Copy)
    requires Grows(s, t) && s.origins <= t.origins && IsRoute(s, n, c)
    ensures IsRoute(t, n, c)
  {
  }

  lemma RouteExtends(s: Net, src: NodeId, dst: NodeId, c: Copy)
    requires IsRoute(s, src, c) && HasLink(s, src, dst) && dst in s.nodes && dst !in c.path
    ensures IsRoute(s, dst, Copy(c.mid, [dst] + c.path))
  {
    var p := [dst] + c.path;
    forall x | x in Hosts(p) ensures x in s.nodes {
      var i :| 0 <= i < |p| - 1 && p[i] == x;
      if i > 0 {
        assert Hosts(c.path)[i - 1] == x;
      }
    }
    forall i, j | 0 <= i < j < |p| ensures p[i] != p[j] {
      assert p[j] == c.path[j - 1];
    }
    forall i | 0 <= i < |p| - 2 ensures HasLink(s, p[i + 1], p[i]) {
      if i > 0 {
        assert HasLink(s, c.path[i], c.path[i - 1]);
      }
    }
  }

  /** What a step does to the stores: a delivery of one in-flight post, a local
      post, or nothing. */
  lemma StepShape(s: Net, step: Step) returns (c: Loose)
    requires Ok(s) && Enabled(s, step)
    ensures step.Receive? || step.ReceiveLoose? ==>
              && LooseOk(s, c)
              && Next(s, step).nodes == Deliver(s, c.src, c.dst, c.copy).nodes
    ensures !step.Receive? && !step.ReceiveLoose? && !step.LocalPost? ==>
              forall n | n in Next(s, step).nodes :: n in s.nodes && Next(s, step).nodes[n].arts == s.nodes[n].arts
    ensures s.origins <= Next(s, step).origins
  {
    c := Loose("", "", 0, Copy("", []));
    match step {
      case Receive(i) =>
        var l := s.links[i];
        assert l in s.links && LinkOk(s, l);
        c := Loose(l.src, l.dst, l.phase.num, l.phase.copy);
      case ReceiveLoose(j) =>
        c := s.loose[j];
        assert c in s.loose;
      case _ =>
    }
  }

  lemma DeliverRoutes(s: Net, t: Net, src: NodeId, dst: NodeId, num: nat, c: Copy)
    requires RoutesOk(s) && Grows(s, t) && s.origins <= t.origins
    requires LooseOk(s, Loose(src, dst, num, c))
    requires t.nodes == Deliver(s, src, dst, c).nodes
    ensures RoutesOk(t)
  {
    RouteExtends(s, src, dst, c);
    forall n, k | n in t.nodes && k in t.nodes[n].arts ensures IsRoute(t, n, t.nodes[n].arts[k]) {
      if k in s.nodes[n].arts && s.nodes[n].arts[k] == t.nodes[n].arts[k] {
        RouteGrows(s, t, n, s.nodes[n].arts[k]);
      } else {
        assert n == dst;
        RouteGrows(s, t, dst, Copy(c.mid, [dst] + c.path));
      }
    }
  }

  lemma LocalPostRoutes(s: Net, t: Net, n: NodeId, mid: MsgId)
    requires POSTED !in s.nodes && RoutesOk(s) && Grows(s, t) && s.origins <= t.origins
    requires Enabled(s, LocalPost(n, mid, [])) && t == Next(s, LocalPost(n, mid, []))
    ensures RoutesOk(t)
  {
    forall m, k | m in t.nodes && k in t.nodes[m].arts ensures IsRoute(t, m, t.nodes[m].arts[k]) {
      if k in s.nodes[m].arts {
        RouteGrows(s, t, m, s.nodes[m].arts[k]);
      } else {
        assert m == n && t.nodes[m].arts[k] == Copy(mid, [n, POSTED]);
      }
    }
  }

  lemma SameStoresRoutes(s: Net, t: Net)
    requires RoutesOk(s) && Grows(s, t) && s.origins <= t.origins
    requires forall n | n in t.nodes :: t.nodes[n].arts == s.nodes[n].arts
    ensures RoutesOk(t)
  {
    forall n, k | n in t.nodes && k in t.nodes[n].arts ensures IsRoute(t, n, t.nodes[n].arts[k]) {
      RouteGrows(s, t, n, s.nodes[n].arts[k]);
    }
  }

  lemma RoutesStep(s: Net, step: Step)
    requires Ok(s) && RoutesOk(s) && Enabled(s, step) && (step.LocalPost? ==> step.path == [])
    ensures RoutesOk(Next(s, step))
  {
    var t := Next(s, step);
    assert Grows(s, t) by {
      StepOk(s, step);
    }
    var c := StepShape(s, step);
    if step.LocalPost? {
      LocalPostRoutes(s, t, step.n, step.mid);
    } else if step.Receive? || step.ReceiveLoose? {
      DeliverRoutes(s, t, c.src, c.dst, c.num, c.copy);
    } else {
      SameStoresRoutes(s, t);
    }
  }

  lemma {:induction false} RunRoutes(s: Net, steps: seq<Step>)
    requires Ok(s) && RoutesOk(s) && IsRun(s, steps) && PlainPosts(steps)
    ensures RoutesOk(Final(s, steps))
    decreases |steps|
  {
    if steps != [] {
      StepOk(s, steps[0]);
      RoutesStep(s, steps[0]);
      RunRoutes(Next(s, steps[0]), steps[1..]);
    }
  }

  /** When local posts carry no Path of their own, every stored Path is a simple
      route of the link graph from the local node back to an origin. */
  lemma PathsAreRoutes(s0: Net, steps: seq<Step>)
    requires Init(s0) && IsRun(s0, steps) && PlainPosts(steps)
    ensures RoutesOk(Final(s0, steps))
  {
    InitOk(s0);
    RunRoutes(s0, steps);
  }
}
