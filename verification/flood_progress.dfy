/** Termination of the flood, and what every node holds once it is at rest. */
module FloodProgress {
  import opened Sets
  import opened Flood
  import opened FloodSafety
  import opened FloodPaths

  // ---- a measure ------------------------------------------------------------

  function PhaseWeight(p: Phase): nat {
    if p.Idle? then 0 else if p.Sent? then 1 else 2
  }

  /** Each article ever posted costs a link at most three more steps. */
  function LinkCost(l: Link, posted: nat): int {
    3 * (posted - |l.verdicts|) - PhaseWeight(l.phase) + (if l.up then 0 else 1)
  }

  function LinksCost(links: seq<Link>, posted: nat): int {
    if links == [] then 0 else LinkCost(links[0], posted) + LinksCost(links[1..], posted)
  }

  function Measure(s: Net): int {
    LinksCost(s.links, |s.posted|) + |s.loose|
  }

  /** What a step that is not quiet may add to the measure. */
  function Toll(s: Net, step: Step): nat {
    match step
    case LocalPost(_, _, _) => 3 * |s.links|
    case AddLink(_, _) => 3 * |s.posted| + 1
    case Interrupt(_) => 3
    case _ => 0
  }

  lemma {:induction false} LinksCostUpdate(links: seq<Link>, i: nat, l: Link, posted: nat)
    requires i < |links|
    ensures LinksCost(links[i := l], posted)
            == LinksCost(links, posted) - LinkCost(links[i], posted) + LinkCost(l, posted)
  {
    if i > 0 {
      LinksCostUpdate(links[1..], i - 1, l, posted);
      assert links[i := l][1..] == links[1..][i - 1 := l];
    } else {
      assert links[i := l][1..] == links[1..];
    }
  }

  lemma {:induction false} LinksCostAppend(links: seq<Link>, l: Link, posted: nat)
    ensures LinksCost(links + [l], posted) == LinksCost(links, posted) + LinkCost(l, posted)
  {
    if links == [] {
      assert links + [l] == [l];
    } else {
      LinksCostAppend(links[1..], l, posted);
      assert (links + [l])[1..] == links[1..] + [l];
    }
  }

  lemma {:induction false} LinksCostPosted(links: seq<Link>, p: nat, q: nat)
    requires p <= q <= p + 1
    ensures LinksCost(links, p) <= LinksCost(links, q) <= LinksCost(links, p) + 3 * |links|
  {
    if links != [] {
      LinksCostPosted(links[1..], p, q);
    }
  }

  /** A link has at most one verdict per article ever posted, and fewer while one
      is pending, so its cost is never negative. */
  lemma LinkCostNonNegative(l: Link, node: Node, posted: set<MsgId>)
    requires NodeOk(node, posted) && Accounted(l, node.arts)
    requires !l.phase.Idle? ==> IsNext(node.arts, l.cursor, l.phase.num)
    ensures LinkCost(l, |posted|) >= 0
  {
    var mids := map num | num in node.arts :: node.arts[num].mid;
    if l.phase.Idle? {
      InjectionBound(l.verdicts.Keys, posted, mids);
    } else {
      var seen := l.verdicts.Keys + {l.phase.num};
      assert l.phase.num !in l.verdicts;
      InjectionBound(seen, posted, mids);
      assert |seen| == |l.verdicts.Keys| + 1;
    }
  }

  lemma {:induction false} LinksCostNonNegative(s: Net, links: seq<Link>)
    requires Ok(s) && forall l | l in links :: l in s.links
    ensures LinksCost(links, |s.posted|) >= 0
    decreases |links|
  {
    if links != [] {
      assert LinkOk(s, links[0]);
      LinkCostNonNegative(links[0], s.nodes[links[0].src], s.posted);
      LinksCostNonNegative(s, links[1..]);
    }
  }

  lemma LinkStepCost(s: Net, i: nat, step: Step)
    requires Ok(s) && Enabled(s, step) && i < |s.links|
    requires step in {Connect(i), Receive(i), Finish(i), Fail(i), Interrupt(i)} || (step.Send? && step.i == i)
    ensures Measure(Next(s, step)) <= Measure(s) + Toll(s, step) - (if step.Quiet() then 1 else 0)
  {
    var t := Next(s, step);
    var l := s.links[i];
    assert l in s.links && LinkOk(s, l);
    assert t.posted == s.posted;
    assert t.links == s.links[i := t.links[i]];
    LinksCostUpdate(s.links, i, t.links[i], |s.posted|);
    if step.Finish? || step.Fail? || step.Send? {
      var num := if step.Send? then step.num else l.phase.num;
      assert num !in l.verdicts;
    }
  }

  /** Every quiet step pays one; every other step adds at most its toll. */
  lemma StepCost(s: Net, step: Step)
    requires Ok(s) && Enabled(s, step)
    ensures Measure(Next(s, step)) <= Measure(s) + Toll(s, step) - (if step.Quiet() then 1 else 0)
  {
    var t := Next(s, step);
    match step {
      case LocalPost(n, mid, path) =>
        SubsetBound(s.posted, t.posted);
        LinksCostPosted(s.links, |s.posted|, |t.posted|);
      case AddLink(a, b) =>
        LinksCostAppend(s.links, t.links[|s.links|], |s.posted|);
      case Reconfigure(_, _) =>
      case Restart(_, _) =>
      case ReceiveLoose(_) =>
      case DropLoose(_) =>
      case Interrupt(i) => LinkStepCost(s, i, step);
      case Connect(i) => LinkStepCost(s, i, step);
      case Send(i, _) => LinkStepCost(s, i, step);
      case Receive(i) => LinkStepCost(s, i, step);
      case Finish(i) => LinkStepCost(s, i, step);
      case Fail(i) => LinkStepCost(s, i, step);
    }
  }

  function QuietCount(steps: seq<Step>): nat {
    if steps == [] then 0 else (if steps[0].Quiet() then 1 else 0) + QuietCount(steps[1..])
  }

  ghost function Tolls(s: Net, steps: seq<Step>): nat
    requires IsRun(s, steps)
    decreases |steps|
  {
    if steps == [] then 0 else Toll(s, steps[0]) + Tolls(Next(s, steps[0]), steps[1..])
  }

  /** Termination.  Whatever the interleaving, the steps the network takes by
      itself are at most the measure of the start plus the tolls of the local
      posts, new links and interruptions in between. */
  lemma {:induction false} FloodTerminates(s: Net, steps: seq<Step>)
    requires Ok(s) && IsRun(s, steps)
    ensures QuietCount(steps) <= Measure(s) + Tolls(s, steps)
    decreases |steps|
  {
    if steps == [] {
      LinksCostNonNegative(s, s.links);
    } else {
      StepCost(s, steps[0]);
      StepOk(s, steps[0]);
      FloodTerminates(Next(s, steps[0]), steps[1..]);
    }
  }

  /** Once nobody posts, links or crashes, every run is finite: no run has more
      quiet steps than three per link and article, plus one connect per link,
      plus the loose posts. */
  lemma QuietRunsAreBounded(s: Net, steps: seq<Step>)
    requires Ok(s) && IsRun(s, steps) && forall step | step in steps :: step.Quiet()
    ensures |steps| <= Measure(s) <= 3 * |s.links| * |s.posted| + |s.links| + |s.loose|
  {
    FloodTerminates(s, steps);
    QuietTolls(s, steps);
    LinksCostBound(s.links, |s.posted|);
  }

  lemma {:induction false} QuietTolls(s: Net, steps: seq<Step>)
    requires IsRun(s, steps) && forall step | step in steps :: step.Quiet()
    ensures Tolls(s, steps) == 0 && QuietCount(steps) == |steps|
    decreases |steps|
  {
    if steps != [] {
      assert steps[0] in steps;
      QuietTolls(Next(s, steps[0]), steps[1..]);
    }
  }

  lemma {:induction false} LinksCostBound(links: seq<Link>, p: nat)
    ensures LinksCost(links, p) <= 3 * |links| * p + |links|
  {
    if links != [] {
      LinksCostBound(links[1..], p);
      assert 3 * |links| * p == 3 * p + 3 * |links[1..]| * p;
    }
  }

  // ---- at rest --------------------------------------------------------------

  /** The link is connected, waits for nothing, and has decided every article. */
  ghost predicate Drained(s: Net, l: Link) {
    && l.up && l.phase.Idle?
    && l.src in s.nodes && forall num | num in s.nodes[l.src].arts :: num in l.verdicts
  }

  lemma {:induction false} LeastAbove(arts: map<nat, Copy>, c: nat, k: nat) returns (num: nat)
    requires k in arts && c < k
    ensures IsNext(arts, c, num)
    decreases k
  {
    if j :| j in arts && c < j < k {
      num := LeastAbove(arts, c, j);
    } else {
      num := k;
    }
  }

  lemma RestDrains(s: Net, i: nat)
    requires Ok(s) && AtRest(s) && i < |s.links|
    ensures Drained(s, s.links[i])
  {
    var l := s.links[i];
    assert l in s.links && LinkOk(s, l);
    assert !Enabled(s, Connect(i)) && !Enabled(s, Receive(i)) && !Enabled(s, Finish(i));
    forall k | k in s.nodes[l.src].arts ensures k in l.verdicts {
      if k > l.cursor {
        var num := LeastAbove(s.nodes[l.src].arts, l.cursor, k);
        assert Enabled(s, Send(i, num));
      }
    }
  }

  /** The flood is at rest exactly when nothing is in flight and every link is
      drained.  A post that is sent can be received here; when the queues of the
      nodes keep it from being answered is what Queues.StuckExactly says. */
  lemma RestMeans(s: Net)
    requires Ok(s)
    ensures AtRest(s) <==> s.loose == [] && forall l | l in s.links :: Drained(s, l)
  {
    if AtRest(s) {
      if s.loose != [] {
        assert Enabled(s, DropLoose(0));
      }
      forall l | l in s.links ensures Drained(s, l) {
        var i :| 0 <= i < |s.links| && s.links[i] == l;
        RestDrains(s, i);
      }
    }
    if s.loose == [] && forall l | l in s.links :: Drained(s, l) {
      forall step: Step | step.Quiet() ensures !Enabled(s, step) {
        if step.Connect? || step.Send? || step.Receive? || step.Finish? || step.Fail? {
          if step.i < |s.links| {
            var l := s.links[step.i];
            assert l in s.links && Drained(s, l) && LinkOk(s, l);
          }
        }
      }
    }
  }

  // ---- completeness ---------------------------------------------------------

  /** The link did not keep m back: it was not withheld for want of read
      permission, refused for any reason but being a duplicate, or lost. */
  ghost predicate Clean(s: Net, l: Link, m: MsgId) {
    l.src in s.nodes && forall num | num in l.verdicts && num in s.nodes[l.src].arts && s.nodes[l.src].arts[num].mid == m ::
      !l.verdicts[num].PermSkipped? && !l.verdicts[num].Refused? && !l.verdicts[num].Failed?
  }

  /** A way from a to b along clean links. */
  ghost predicate CleanRoute(s: Net, m: MsgId, a: NodeId, route: seq<Link>, b: NodeId)
    decreases |route|
  {
    if route == [] then a == b
    else route[0] in s.links && route[0].src == a && Clean(s, route[0], m)
         && CleanRoute(s, m, route[0].dst, route[1..], b)
  }

  /** The link is through with m: no number of m at its sender is above the cursor. */
  ghost predicate Past(s: Net, l: Link, m: MsgId) {
    l.src in s.nodes && forall num | num in s.nodes[l.src].arts && s.nodes[l.src].arts[num].mid == m :: num <= l.cursor
  }

  lemma DrainedIsPast(s: Net, l: Link, m: MsgId)
    requires Ok(s) && l in s.links && Drained(s, l)
    ensures Past(s, l, m)
  {
    assert LinkOk(s, l);
  }

  lemma CleanLinkDelivers(s: Net, l: Link, m: MsgId)
    requires Ok(s) && SoundFor(s, m) && l in s.links && Past(s, l, m)
    requires Holds(s, l.src, m) && Clean(s, l, m)
    ensures Holds(s, l.dst, m)
  {
    assert LinkOk(s, l);
    var num :| num in s.nodes[l.src].arts && s.nodes[l.src].arts[num].mid == m;
    var c := s.nodes[l.src].arts[num];
    assert VerdictOk(s, l, c, l.verdicts[num]);
    if l.verdicts[num].PathSkipped? {
      assert CopySound(s, c);
    }
  }

  lemma {:induction false} CleanRouteDelivers(s: Net, m: MsgId, a: NodeId, route: seq<Link>, b: NodeId)
    requires Ok(s) && SoundFor(s, m) && Holds(s, a, m)
    requires CleanRoute(s, m, a, route, b) && forall l | l in route :: Past(s, l, m)
    ensures Holds(s, b, m)
    decreases |route|
  {
    if route != [] {
      assert route[0] in route;
      CleanLinkDelivers(s, route[0], m);
      CleanRouteDelivers(s, m, route[0].dst, route[1..], b);
    }
  }

  /** In every state that a run reaches, at rest or not, a node holds m when clean
      links that are through with m join it to an origin of m, if the posts of m
      itself were honest about its Path.  The rest of the network may be down, busy
      or broken for good. */
  lemma FloodReaches(s0: Net, steps: seq<Step>, m: MsgId, origin: NodeId, route: seq<Link>, b: NodeId)
    requires Init(s0) && IsRun(s0, steps) && HonestRun(s0, steps, m)
    requires (origin, m) in Final(s0, steps).origins
    requires CleanRoute(Final(s0, steps), m, origin, route, b) && forall l | l in route :: Past(Final(s0, steps), l, m)
    ensures Holds(Final(s0, steps), b, m)
  {
    var s := Final(s0, steps);
    InitOk(s0);
    RunOk(s0, steps);
    PathSkipSound(s0, steps, m);
    assert Holds(s, (origin, m).0, (origin, m).1);
    CleanRouteDelivers(s, m, origin, route, b);
  }

  lemma {:induction false} RouteLinks(s: Net, m: MsgId, a: NodeId, route: seq<Link>, b: NodeId)
    requires CleanRoute(s, m, a, route, b)
    ensures forall l | l in route :: l in s.links
    decreases |route|
  {
    if route != [] {
      RouteLinks(s, m, route[0].dst, route[1..], b);
      assert route == [route[0]] + route[1..];
    }
  }

  /** Completeness.  In any rest state of any run, with any peer graph and any
      interleaving of posts, deliveries, failures, crashes and restarts, each node
      that clean links join to an origin of m holds m, if the posts of m itself
      were honest about its Path. */
  lemma FloodComplete(s0: Net, steps: seq<Step>, m: MsgId, origin: NodeId, route: seq<Link>, b: NodeId)
    requires Init(s0) && IsRun(s0, steps) && HonestRun(s0, steps, m) && AtRest(Final(s0, steps))
    requires (origin, m) in Final(s0, steps).origins
    requires CleanRoute(Final(s0, steps), m, origin, route, b)
    ensures Holds(Final(s0, steps), b, m)
  {
    var s := Final(s0, steps);
    InitOk(s0);
    RunOk(s0, steps);
    RestMeans(s);
    RouteLinks(s, m, origin, route, b);
    forall l | l in route ensures Past(s, l, m) {
      DrainedIsPast(s, l, m);
    }
    FloodReaches(s0, steps, m, origin, route, b);
  }

  // ---- without failures -----------------------------------------------------

  /** m may cross every link: its sender lets the peer read it and the peer files it. */
  ghost predicate Open(s: Net, m: MsgId) {
    forall l | l in s.links :: (l.src, l.dst, m) in s.mayRead && (l.dst, l.src, m) in s.mayPost
  }

  /** An attempt at m fails. */
  predicate Loses(s: Net, step: Step, m: MsgId) {
    step.Fail? && step.i < |s.links| && s.links[step.i].phase.Sent? && s.links[step.i].phase.copy.mid == m
  }

  ghost predicate OpenRun(s: Net, steps: seq<Step>, m: MsgId)
    requires IsRun(s, steps)
    decreases |steps|
  {
    Open(s, m) && (steps == [] || (!Loses(s, steps[0], m) && OpenRun(Next(s, steps[0]), steps[1..], m)))
  }

  ghost predicate AllClean(s: Net, m: MsgId) {
    forall l | l in s.links :: LinkClean(s, l, m)
  }

  ghost predicate LinkClean(s: Net, l: Link, m: MsgId) {
    && Clean(s, l, m)
    && (l.phase.Answered? && l.phase.copy.mid == m ==> !l.phase.verdict.Refused?)
  }

  lemma AdvanceClean(s: Net, l: Link, num: nat, v: Verdict, m: MsgId)
    requires LinkOk(s, l) && LinkClean(s, l, m) && num in s.nodes[l.src].arts
    requires s.nodes[l.src].arts[num].mid == m ==> !v.PermSkipped? && !v.Refused? && !v.Failed?
    ensures LinkClean(s, Advance(l, num, v), m)
  {
  }

  /** The step does not keep m back on link i. */
  ghost predicate Passes(s: Net, step: Step, i: nat, m: MsgId)
    requires Enabled(s, step) && i < |s.links|
  {
    var l := s.links[i];
    match step
    case Send(j, num) =>
      j == i && s.nodes[l.src].arts[num].mid == m && l.dst !in s.nodes[l.src].arts[num].path ==> (l.src, l.dst, m) in s.mayRead
    case Receive(j) => j == i && l.phase.copy.mid == m ==> !Judge(s, l.src, l.dst, l.phase.copy).Refused?
    case Fail(j) => j == i ==> l.phase.copy.mid != m
    case _ => true
  }

  /** The link that a step may replace, over the stores before the step. */
  lemma LinkStepClean(s: Net, i: nat, step: Step, m: MsgId)
    requires i < |s.links| && LinkOk(s, s.links[i]) && Enabled(s, step) && Passes(s, step, i, m)
    requires LinkClean(s, s.links[i], m)
    ensures i < |Next(s, step).links|
    ensures var l' := Next(s, step).links[i];
            && LinkClean(s, l', m) && l'.src == s.links[i].src
            && forall num | num in l'.verdicts :: num in s.nodes[l'.src].arts
  {
    var l := s.links[i];
    var l' := Next(s, step).links[i];
    if step.Send? && step.i == i {
      var c := s.nodes[l.src].arts[step.num];
      if l' == Advance(l, step.num, PathSkipped) {
        AdvanceClean(s, l, step.num, PathSkipped, m);
      } else if (l.src, l.dst, c.mid) !in s.mayRead {
        AdvanceClean(s, l, step.num, PermSkipped, m);
      }
    } else if step.Finish? && step.i == i {
      AdvanceClean(s, l, l.phase.num, l.phase.verdict, m);
    } else if step.Fail? && step.i == i {
      AdvanceClean(s, l, l.phase.num, Failed, m);
    }
  }

  /** A verdict on an article the old stores had means the same over grown ones. */
  lemma VerdictsGrow(s: Net, t: Net, l: Link, m: MsgId)
    requires l.src in s.nodes && l.src in t.nodes && NodeGrows(s.nodes[l.src], t.nodes[l.src])
    requires LinkClean(s, l, m) && forall num | num in l.verdicts :: num in s.nodes[l.src].arts
    ensures LinkClean(t, l, m)
  {
  }

  lemma LinkFacts(s: Net, i: nat)
    requires Ok(s) && i < |s.links|
    ensures LinkOk(s, s.links[i]) && NodeOk(s.nodes[s.links[i].src], s.posted)
  {
    assert s.links[i] in s.links;
  }

  /** A step that does not keep m back on link i leaves the link clean. */
  lemma PassingStepClean(s: Net, t: Net, i: nat, step: Step, m: MsgId)
    requires i < |s.links| && LinkOk(s, s.links[i]) && Enabled(s, step) && t == Next(s, step) && Grows(s, t)
    requires Passes(s, step, i, m) && LinkClean(s, s.links[i], m)
    ensures i < |t.links| && LinkClean(t, t.links[i], m)
  {
    LinkStepClean(s, i, step, m);
    VerdictsGrow(s, t, t.links[i], m);
  }

  lemma OpenPasses(s: Net, i: nat, step: Step, m: MsgId)
    requires i < |s.links| && LinkOk(s, s.links[i]) && NodeOk(s.nodes[s.links[i].src], s.posted)
    requires Enabled(s, step) && !Loses(s, step, m) && Open(s, m)
    ensures Passes(s, step, i, m)
  {
    assert s.links[i] in s.links;
  }

  lemma OpenStep(s: Net, step: Step, m: MsgId)
    requires Ok(s) && Enabled(s, step) && !Loses(s, step, m) && Open(s, m) && AllClean(s, m)
    ensures AllClean(Next(s, step), m)
  {
    var t := Next(s, step);
    assert Grows(s, t) by {
      StepOk(s, step);
    }
    forall i: nat | i < |t.links| ensures LinkClean(t, t.links[i], m) {
      if i < |s.links| {
        LinkFacts(s, i);
        assert s.links[i] in s.links;
        OpenPasses(s, i, step, m);
        PassingStepClean(s, t, i, step, m);
      } else {
        NewLinkIsLast(s, step, i);
      }
    }
  }

  lemma NewLinkIsLast(s: Net, step: Step, i: nat)
    requires Enabled(s, step) && |s.links| <= i < |Next(s, step).links|
    ensures step.AddLink? && Next(s, step).links[i].verdicts == map[] && Next(s, step).links[i].phase.Idle?
    ensures Next(s, step).links[i].src in Next(s, step).nodes
  {
  }

  lemma {:induction false} RunAllClean(s: Net, steps: seq<Step>, m: MsgId)
    requires Ok(s) && IsRun(s, steps) && OpenRun(s, steps, m) && AllClean(s, m)
    ensures AllClean(Final(s, steps), m)
    decreases |steps|
  {
    if steps != [] {
      StepOk(s, steps[0]);
      OpenStep(s, steps[0], m);
      RunAllClean(Next(s, steps[0]), steps[1..], m);
    }
  }

  /** A way from a to b along links of any kind. */
  ghost predicate LinkRoute(s: Net, a: NodeId, route: seq<Link>, b: NodeId)
    decreases |route|
  {
    if route == [] then a == b
    else route[0] in s.links && route[0].src == a && LinkRoute(s, route[0].dst, route[1..], b)
  }

  lemma {:induction false} LinkRouteClean(s: Net, m: MsgId, a: NodeId, route: seq<Link>, b: NodeId)
    requires AllClean(s, m) && LinkRoute(s, a, route, b)
    ensures CleanRoute(s, m, a, route, b)
    decreases |route|
  {
    if route != [] {
      LinkRouteClean(s, m, route[0].dst, route[1..], b);
    }
  }

  /** With m permitted on every link throughout and no attempt at it failing, crashes
      and restarts included, at rest every node reachable from an origin over
      any links at all holds m. */
  lemma OpenFloodReachesAll(s0: Net, steps: seq<Step>, m: MsgId, origin: NodeId, route: seq<Link>, b: NodeId)
    requires Init(s0) && IsRun(s0, steps) && HonestRun(s0, steps, m) && OpenRun(s0, steps, m)
    requires AtRest(Final(s0, steps)) && (origin, m) in Final(s0, steps).origins
    requires LinkRoute(Final(s0, steps), origin, route, b)
    ensures Holds(Final(s0, steps), b, m)
  {
    InitOk(s0);
    RunAllClean(s0, steps, m);
    LinkRouteClean(Final(s0, steps), m, origin, route, b);
    FloodComplete(s0, steps, m, origin, route, b);
  }

  // ---- why honesty is needed ------------------------------------------------

  /** A local user who posts with a Path header already naming the peer makes the
      relay withhold the article: everything is open, nothing fails, the network
      comes to rest, and the peer never gets it. */
  lemma PresetPathLosesArticle(a: NodeId, b: NodeId, m: MsgId) returns (s0: Net, steps: seq<Step>)
    requires a != b && a != POSTED && b != POSTED
    ensures Init(s0) && IsRun(s0, steps) && OpenRun(s0, steps, m) && AtRest(Final(s0, steps))
    ensures (a, m) in Final(s0, steps).origins && HasLink(Final(s0, steps), a, b)
    ensures !Holds(Final(s0, steps), b, m)
  {
    var s1, s2, s3, s4;
    s0, s1, s2, s3, s4 := PresetPathStates(a, b, m);
    steps := PrependStep(s3, Send(0, 1), s4, [], m);
    steps := PrependStep(s2, LocalPost(a, m, [b]), s3, steps, m);
    steps := PrependStep(s1, Connect(0), s2, steps, m);
    steps := PrependStep(s0, AddLink(a, b), s1, steps, m);
    InitOk(s0);
    RunOk(s0, steps);
    RestMeans(s4);
  }

  lemma PresetPathStates(a: NodeId, b: NodeId, m: MsgId)
    returns (s0: Net, s1: Net, s2: Net, s3: Net, s4: Net)
    requires a != b && a != POSTED && b != POSTED
    ensures Init(s0) && forall s | s in {s0, s1, s2, s3, s4} :: Open(s, m)
    ensures Enabled(s0, AddLink(a, b)) && Next(s0, AddLink(a, b)) == s1
    ensures Enabled(s1, Connect(0)) && Next(s1, Connect(0)) == s2
    ensures Enabled(s2, LocalPost(a, m, [b])) && Next(s2, LocalPost(a, m, [b])) == s3
    ensures Enabled(s3, Send(0, 1)) && Next(s3, Send(0, 1)) == s4
    ensures s4.loose == [] && (forall l | l in s4.links :: Drained(s4, l))
    ensures (a, m) in s4.origins && HasLink(s4, a, b) && !Holds(s4, b, m)
  {
    s0, s1, s2 := ConnectedStates(a, b, m);
    var c := Copy(m, [a, POSTED, b]);
    s3 := s2.(nodes := map[a := Node(map[1 := c], 1), b := Node(map[], 0)], posted := {m}, origins := {(a, m)});
    PresetPathPosted(s2, s3, a, b, m);
    s4 := s3.(links := [Advance(s3.links[0], 1, PathSkipped)]);
    assert IsNext(s3.nodes[a].arts, 0, 1) && b == c.path[2];
    assert s4.links[0] in s4.links;
  }

  /** Two nodes, one link that is up, and m permitted both ways. */
  ghost predicate TwoNodes(s: Net, a: NodeId, b: NodeId, m: MsgId) {
    s == Net(map[a := Node(map[], 0), b := Node(map[], 0)], [Link(a, b, true, 0, Idle, map[], map[], map[])], [],
             {}, {}, {(a, b, m)}, {(b, a, m)})
  }

  lemma ConnectedStates(a: NodeId, b: NodeId, m: MsgId) returns (s0: Net, s1: Net, s2: Net)
    requires a != b && a != POSTED && b != POSTED
    ensures Init(s0) && Open(s0, m) && Open(s1, m) && TwoNodes(s2, a, b, m)
    ensures Enabled(s0, AddLink(a, b)) && Next(s0, AddLink(a, b)) == s1
    ensures Enabled(s1, Connect(0)) && Next(s1, Connect(0)) == s2
  {
    var lone := Node(map[], 0);
    s0 := Net(map[a := lone, b := lone], [], [], {}, {}, {(a, b, m)}, {(b, a, m)});
    s1 := s0.(links := [Link(a, b, false, 0, Idle, map[], map[], map[])]);
    s2 := s1.(links := [s1.links[0].(up := true)]);
  }

  lemma PresetPathPosted(s2: Net, s3: Net, a: NodeId, b: NodeId, m: MsgId)
    requires a != b && TwoNodes(s2, a, b, m)
    requires s3 == s2.(nodes := map[a := Node(map[1 := Copy(m, [a, POSTED, b])], 1), b := Node(map[], 0)],
                       posted := {m}, origins := {(a, m)})
    ensures Enabled(s2, LocalPost(a, m, [b])) && Next(s2, LocalPost(a, m, [b])) == s3
  {
    assert [a, POSTED] + [b] == [a, POSTED, b];
    assert s2.nodes[a := Node(map[1 := Copy(m, [a, POSTED, b])], 1)] == s3.nodes;
  }

  lemma PrependStep(s: Net, step: Step, t: Net, rest: seq<Step>, m: MsgId) returns (steps: seq<Step>)
    requires Enabled(s, step) && Next(s, step) == t && IsRun(t, rest) && OpenRun(t, rest, m)
    requires Open(s, m) && !Loses(s, step, m)
    ensures IsRun(s, steps) && OpenRun(s, steps, m) && Final(s, steps) == Final(t, rest)
  {
    steps := [step] + rest;
    assert steps[1..] == rest;
  }
}
