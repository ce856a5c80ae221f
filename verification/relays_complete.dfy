/** The flood's theorems about a network of stores. */
module RelaysComplete {
  import opened Options
  import opened Sets
  import opened Text
  import D = ArticleDb
  import opened ArticleRefs
  import P = Peering
  import R = Registry
  import B = Backend
  import F = Flood
  import opened FloodSafety
  import FP = FloodPaths
  import G = FloodProgress
  import opened Refinement
  import opened Relays
  import opened RelaysFlood

  // ---- one step -------------------------------------------------------------

  ghost predicate Simulates(w: World, f: F.Net) {
    WorldOk(w) && Matches(w, f) && Ok(f)
  }

  /** The flood's steps for s lead from f to g, and g is the flood after s. */
  ghost predicate Simulated(w: World, f: F.Net, s: Step, g: F.Net) {
    && SitesOk(w) && LinesRegistered(w) && Enabled(w, s) && (s.ReceiveStray? ==> w.strays[s.j].dst in w.sites)
    && Leads(f, Sim(w, f, s), g) && WorldOk(Next(w, s)) && Matches(Next(w, s), g)
  }

  lemma ServeStep(w: World, f: F.Net, s: Step) returns (g: F.Net)
    requires WorldOk(w) && Matches(w, f) && Enabled(w, s) && s.Serve?
    ensures Simulated(w, f, s, g)
  {
    ServeMatches(w, f, s.n, s.peer);
    g := One(f, F.AddLink(s.n, s.peer));
  }

  lemma FinishStep(w: World, f: F.Net, s: Step) returns (g: F.Net)
    requires WorldOk(w) && Matches(w, f) && Enabled(w, s) && s.Finish?
    ensures Simulated(w, f, s, g)
  {
    FinishMatches(w, f, s.i);
    g := One(f, F.Finish(s.i));
  }

  lemma FailStep(w: World, f: F.Net, s: Step) returns (g: F.Net)
    requires WorldOk(w) && Matches(w, f) && Enabled(w, s) && s.Fail?
    ensures Simulated(w, f, s, g)
  {
    FailMatches(w, f, s.i);
    g := One(f, F.Fail(s.i));
  }

  lemma InterruptStep(w: World, f: F.Net, s: Step) returns (g: F.Net)
    requires WorldOk(w) && Matches(w, f) && Enabled(w, s) && s.Interrupt?
    ensures Simulated(w, f, s, g)
  {
    InterruptMatches(w, f, s.i);
    g := One(f, F.Interrupt(s.i));
  }

  lemma ConnectStep(w: World, f: F.Net, s: Step) returns (g: F.Net)
    requires WorldOk(w) && Matches(w, f) && Enabled(w, s) && s.Connect?
    ensures Simulated(w, f, s, g)
  {
    ConnectMatches(w, f, s.i);
    g := One(f, F.Connect(s.i));
  }

  lemma RestartStep(w: World, f: F.Net, s: Step) returns (g: F.Net)
    requires WorldOk(w) && Matches(w, f) && Enabled(w, s) && s.Restart?
    ensures Simulated(w, f, s, g)
  {
    RestartMatches(w, f, s.n, s.now);
    g := One(f, F.Restart(s.n, s.now));
  }

  lemma DropStrayStep(w: World, f: F.Net, s: Step) returns (g: F.Net)
    requires WorldOk(w) && Matches(w, f) && Enabled(w, s) && s.DropStray?
    ensures Simulated(w, f, s, g)
  {
    DropStrayMatches(w, f, s.j);
    g := One(f, F.DropLoose(s.j));
  }

  lemma PostStep(w: World, f: F.Net, s: Step) returns (g: F.Net)
    requires WorldOk(w) && Matches(w, f) && Enabled(w, s) && s.Post?
    ensures Simulated(w, f, s, g)
  {
    PostMatches(w, f, s.n, s.a, s.verified, s.after, s.out);
    if s.out.Posted? {
      g := One(f, F.LocalPost(s.n, s.a.messageId, PathOf(s.a.path)));
    } else {
      g := Zero(f);
    }
  }

  lemma Zero(f: F.Net) returns (g: F.Net)
    ensures g == f && Leads(f, [], g)
  {
    g := f;
  }

  lemma TurnStep(w: World, f: F.Net, s: Step) returns (g: F.Net)
    requires WorldOk(w) && Matches(w, f) && Enabled(w, s) && s.Turn?
    ensures Simulated(w, f, s, g)
  {
    TurnMatches(w, f, s.i);
    g := Two(f, F.Reconfigure(MayPass(w, f, s.i), f.mayPost), F.Send(s.i, TurnNumber(TurnOf(w, w.lines[s.i]))));
  }

  lemma ReceiveStep(w: World, f: F.Net, s: Step) returns (g: F.Net)
    requires WorldOk(w) && Matches(w, f) && Enabled(w, s) && s.Receive?
    ensures Simulated(w, f, s, g)
  {
    var l := w.lines[s.i];
    ReceiveMatches(w, f, s.i, s.verified, s.after, s.out);
    g := Two(f, F.Reconfigure(f.mayRead, MayFile(w, l.src, l.dst, l.wire.article, s.out)), F.Receive(s.i));
  }

  lemma StrayStep(w: World, f: F.Net, s: Step) returns (g: F.Net)
    requires WorldOk(w) && Matches(w, f) && Enabled(w, s) && s.ReceiveStray?
    ensures Simulated(w, f, s, g)
  {
    var c := w.strays[s.j];
    ReceiveStrayMatches(w, f, s.j, s.verified, s.after, s.out);
    g := Two(f, F.Reconfigure(f.mayRead, MayFile(w, c.src, c.dst, c.article, s.out)), F.ReceiveLoose(s.j));
  }

  /** Every step of the network is none, one or two steps of the flood. */
  lemma StepSimulated(w: World, f: F.Net, s: Step) returns (g: F.Net)
    requires WorldOk(w) && Matches(w, f) && Enabled(w, s)
    ensures Simulated(w, f, s, g)
  {
    if s.Post? || s.Turn? || s.Receive? || s.ReceiveStray? {
      g := ArticleStep(w, f, s);
    } else {
      g := LineStep(w, f, s);
    }
  }

  lemma ArticleStep(w: World, f: F.Net, s: Step) returns (g: F.Net)
    requires WorldOk(w) && Matches(w, f) && Enabled(w, s) && (s.Post? || s.Turn? || s.Receive? || s.ReceiveStray?)
    ensures Simulated(w, f, s, g)
  {
    if s.Post? {
      g := PostStep(w, f, s);
    } else if s.Turn? {
      g := TurnStep(w, f, s);
    } else if s.Receive? {
      g := ReceiveStep(w, f, s);
    } else {
      g := StrayStep(w, f, s);
    }
  }

  lemma LineStep(w: World, f: F.Net, s: Step) returns (g: F.Net)
    requires WorldOk(w) && Matches(w, f) && Enabled(w, s) && !s.Post? && !s.Turn? && !s.Receive? && !s.ReceiveStray?
    ensures Simulated(w, f, s, g)
  {
    match s {
      case Serve(_, _) => g := ServeStep(w, f, s);
      case Finish(_) => g := FinishStep(w, f, s);
      case Fail(_) => g := FailStep(w, f, s);
      case Interrupt(_) => g := InterruptStep(w, f, s);
      case Connect(_) => g := ConnectStep(w, f, s);
      case Restart(_, _) => g := RestartStep(w, f, s);
      case DropStray(_) => g := DropStrayStep(w, f, s);
    }
  }

  lemma One(f: F.Net, x: F.Step) returns (g: F.Net)
    requires F.Enabled(f, x)
    ensures g == F.Next(f, x) && Leads(f, [x], g)
  {
    g := F.Next(f, x);
    OneLeads(f, x);
  }

  lemma Two(f: F.Net, x: F.Step, y: F.Step) returns (g: F.Net)
    requires F.Enabled(f, x) && F.Enabled(F.Next(f, x), y)
    ensures g == F.Next(F.Next(f, x), y) && Leads(f, [x, y], g)
  {
    g := F.Next(F.Next(f, x), y);
    TwoLead(f, x, y);
  }

  // ---- what one step does to one article ------------------------------------

  /** The step withholds m on line i for want of permission, loses it, or sees it
      refused by a node that does not have it. */
  ghost predicate KeepsBack(w: World, s: Step, i: nat, m: D.MsgId)
    requires Enabled(w, s) && LinesRegistered(w) && i < |w.lines|
  {
    var l := w.lines[i];
    match s
    case Turn(j) =>
      j == i && TurnOf(w, l).SkippedPerms? && m in w.sites[l.src].db.rows && w.sites[l.src].db.rows[m].id == TurnOf(w, l).num
    case Fail(j) => j == i && l.wire.article.messageId == m
    case Receive(j, _, _, out) => j == i && l.wire.article.messageId == m && !out.Posted? && m !in w.sites[l.dst].db.rows
    case _ => false
  }

  lemma LeadsOne(f: F.Net, x: F.Step, g: F.Net)
    requires Leads(f, [x], g)
    ensures F.Enabled(f, x) && g == F.Next(f, x)
  {
    assert [x][1..] == [];
    assert F.Final(F.Next(f, x), []) == F.Next(f, x);
  }

  lemma StepGrows(f: F.Net, x: F.Step)
    requires Ok(f) && F.Enabled(f, x)
    ensures Ok(F.Next(f, x)) && Grows(f, F.Next(f, x))
  {
    StepOk(f, x);
  }

  lemma OneClean(f: F.Net, x: F.Step, g: F.Net, i: nat, m: D.MsgId)
    requires Ok(f) && Leads(f, [x], g) && i < |f.links| && G.LinkClean(f, f.links[i], m)
    requires F.Enabled(f, x) ==> G.Passes(f, x, i, m)
    ensures Ok(g) && i < |g.links| && G.LinkClean(g, g.links[i], m)
  {
    LeadsOne(f, x, g);
    assert LinkOk(f, f.links[i]) by {
      G.LinkFacts(f, i);
    }
    StepGrows(f, x);
    G.PassingStepClean(f, g, i, x, m);
  }

  lemma LeadsSplit(f: F.Net, x: F.Step, y: F.Step, g: F.Net)
    requires Leads(f, [x, y], g)
    ensures F.Enabled(f, x) && Leads(f, [x], F.Next(f, x)) && Leads(F.Next(f, x), [y], g)
  {
    assert [x, y][1..] == [y] && [x][1..] == [];
  }

  /** The same, with the permissions set first. */
  lemma TwoClean(f: F.Net, r: set<(Id, Id, D.MsgId)>, p: set<(Id, Id, D.MsgId)>, y: F.Step, g: F.Net, i: nat, m: D.MsgId)
    requires Ok(f) && Leads(f, [F.Reconfigure(r, p), y], g) && i < |f.links| && G.LinkClean(f, f.links[i], m)
    requires F.Enabled(Set(f, r, p), y) ==> G.Passes(Set(f, r, p), y, i, m)
    ensures Ok(g) && i < |g.links| && G.LinkClean(g, g.links[i], m)
  {
    LeadsSplit(f, F.Reconfigure(r, p), y, g);
    OneClean(f, F.Reconfigure(r, p), Set(f, r, p), i, m);
    OneClean(Set(f, r, p), y, g, i, m);
  }

  /** A turn that does not withhold m passes it on. */
  lemma TurnPassesHere(w: World, f: F.Net, j: nat, m: D.MsgId)
    requires WorldOk(w) && SitesMatch(w, f) && LinesMatch(w, f) && Enabled(w, Turn(j)) && !KeepsBack(w, Turn(j), j, m)
    ensures var k, num := f.links[j], TurnNumber(TurnOf(w, w.lines[j]));
            && k.src in f.nodes && num in f.nodes[k.src].arts
            && var c := f.nodes[k.src].arts[num];
               c.mid == m && k.dst !in c.path ==> (k.src, k.dst, m) in MayPass(w, f, j)
  {
    var l, k := w.lines[j], f.links[j];
    TurnOffers(w, f, j);
    assert l.src == k.src && l.dst == k.dst by {
      assert LineMatches(w, l, k);
    }
    var turn, num := TurnOf(w, l), TurnNumber(TurnOf(w, l));
    var c := f.nodes[k.src].arts[num];
    if c.mid == m && turn.SkippedPerms? {
      RowOf(w.sites[l.src].db, f.nodes[l.src], num);
    }
    if turn.SkippedPath? {
      assert F.Offer(k, num, c, true) == F.Advance(k, num, F.PathSkipped);
    }
  }

  lemma RowOf(db: D.Db, n: F.Node, num: nat)
    requires Represents(db, n) && num in n.arts
    ensures n.arts[num].mid in db.rows && db.rows[n.arts[num].mid].id == num
  {
  }

  lemma TurnPasses(w: World, f: F.Net, j: nat, i: nat, m: D.MsgId)
    requires WorldOk(w) && SitesMatch(w, f) && LinesMatch(w, f) && Enabled(w, Turn(j)) && i < |w.lines| && !KeepsBack(w, Turn(j), i, m)
    ensures var f1, y := Set(f, MayPass(w, f, j), f.mayPost), F.Send(j, TurnNumber(TurnOf(w, w.lines[j])));
            F.Enabled(f1, y) ==> G.Passes(f1, y, i, m)
  {
    if i == j {
      TurnPassesHere(w, f, j, m);
    }
  }

  lemma ReceivePasses(w: World, f: F.Net, j: nat, verified: bool, after: R.Hub, out: B.Outcome, i: nat, m: D.MsgId)
    requires LinesRegistered(w) && LinesMatch(w, f) && Enabled(w, Receive(j, verified, after, out)) && i < |w.lines|
    requires !KeepsBack(w, Receive(j, verified, after, out), i, m)
    ensures var l := w.lines[j];
            var f1 := Set(f, f.mayRead, MayFile(w, l.src, l.dst, l.wire.article, out));
            F.Enabled(f1, F.Receive(j)) ==> G.Passes(f1, F.Receive(j), i, m)
  {
    assert LineMatches(w, w.lines[j], f.links[j]);
    assert CopyOf(w.lines[j].wire.article).path != [];
  }

  lemma PlainClean(w: World, f: F.Net, s: Step, g: F.Net, i: nat, m: D.MsgId)
    requires Simulates(w, f) && Simulated(w, f, s, g) && i < |w.lines| && !KeepsBack(w, s, i, m)
    requires i < |f.links| && G.LinkClean(f, f.links[i], m)
    requires !s.Turn? && !s.Receive? && !s.ReceiveStray? && (s.Post? ==> s.out.Posted?)
    ensures i < |g.links| && G.LinkClean(g, g.links[i], m)
  {
    if s.Fail? {
      assert LineMatches(w, w.lines[s.i], f.links[s.i]);
    }
    OneClean(f, Sim(w, f, s)[0], g, i, m);
  }

  lemma DeliveryClean(w: World, f: F.Net, s: Step, g: F.Net, i: nat, m: D.MsgId)
    requires Simulates(w, f) && Simulated(w, f, s, g) && i < |w.lines| && !KeepsBack(w, s, i, m)
    requires i < |f.links| && G.LinkClean(f, f.links[i], m) && (s.Receive? || s.ReceiveStray?)
    ensures i < |g.links| && G.LinkClean(g, g.links[i], m)
  {
    if s.Receive? {
      var l := w.lines[s.i];
      ReceivePasses(w, f, s.i, s.verified, s.after, s.out, i, m);
      TwoClean(f, f.mayRead, MayFile(w, l.src, l.dst, l.wire.article, s.out), F.Receive(s.i), g, i, m);
    } else {
      var c := w.strays[s.j];
      TwoClean(f, f.mayRead, MayFile(w, c.src, c.dst, c.article, s.out), F.ReceiveLoose(s.j), g, i, m);
    }
  }

  /** A step that does not keep m back on line i leaves the flood's link clean. */
  lemma StepClean(w: World, f: F.Net, s: Step, g: F.Net, i: nat, m: D.MsgId)
    requires Simulates(w, f) && Simulated(w, f, s, g) && i < |w.lines| && !KeepsBack(w, s, i, m)
    requires i < |f.links| && G.LinkClean(f, f.links[i], m)
    ensures i < |g.links| && G.LinkClean(g, g.links[i], m)
  {
    if s.Turn? {
      TurnPasses(w, f, s.i, i, m);
      TwoClean(f, MayPass(w, f, s.i), f.mayPost, F.Send(s.i, TurnNumber(TurnOf(w, w.lines[s.i]))), g, i, m);
    } else if s.Receive? || s.ReceiveStray? {
      DeliveryClean(w, f, s, g, i, m);
    } else if s.Post? && !s.out.Posted? {
      assert g == f;
    } else {
      PlainClean(w, f, s, g, i, m);
    }
  }

  // ---- the Path skip --------------------------------------------------------

  /** A local post of m whose own Path header names no other node that lacks m. */
  predicate HonestStep(w: World, s: Step, m: D.MsgId) {
    s.Post? && s.a.messageId == m ==>
      forall x | x in PathOf(s.a.path) && x in w.sites && x != s.n :: m in w.sites[x].db.rows
  }

  lemma HonestPosts(w: World, f: F.Net, s: Step, m: D.MsgId)
    requires SitesMatch(w, f) && HonestStep(w, s, m) && s.Post?
    ensures FP.HonestPost(f, F.LocalPost(s.n, s.a.messageId, PathOf(s.a.path)), m)
  {
    if s.a.messageId == m {
      forall x | x in PathOf(s.a.path) && x in f.nodes && x != s.n ensures F.Holds(f, x, m) {
        RepresentsHolds(w.sites[x].db, f.nodes[x], m);
      }
    }
  }

  lemma OneSound(f: F.Net, x: F.Step, g: F.Net, m: D.MsgId)
    requires Ok(f) && Leads(f, [x], g) && FP.SoundFor(f, m) && FP.HonestPost(f, x, m)
    ensures Ok(g) && FP.SoundFor(g, m)
  {
    LeadsOne(f, x, g);
    StepGrows(f, x);
    FP.PathsSoundStep(f, x, m);
  }

  lemma TwoSound(f: F.Net, x: F.Step, y: F.Step, g: F.Net, m: D.MsgId)
    requires Ok(f) && Leads(f, [x, y], g) && FP.SoundFor(f, m) && !x.LocalPost? && !y.LocalPost?
    ensures Ok(g) && FP.SoundFor(g, m)
  {
    LeadsSplit(f, x, y, g);
    OneSound(f, x, F.Next(f, x), m);
    OneSound(F.Next(f, x), y, g, m);
  }

  lemma StepSound(w: World, f: F.Net, s: Step, g: F.Net, m: D.MsgId)
    requires Simulated(w, f, s, g) && Ok(f) && FP.SoundFor(f, m) && HonestStep(w, s, m) && SitesMatch(w, f)
    ensures Ok(g) && FP.SoundFor(g, m)
  {
    SimShape(w, f, s);
    var xs := Sim(w, f, s);
    if |xs| == 1 {
      if s.Post? {
        HonestPosts(w, f, s, m);
      }
      OneSound(f, xs[0], g, m);
    } else if |xs| == 2 {
      TwoSound(f, xs[0], xs[1], g, m);
    }
  }

  lemma SimShape(w: World, f: F.Net, s: Step)
    requires SitesOk(w) && Enabled(w, s) && LinesRegistered(w) && (s.ReceiveStray? ==> w.strays[s.j].dst in w.sites)
    ensures var xs := Sim(w, f, s);
            && (xs == [] || xs == [xs[0]] || (|xs| == 2 && xs == [xs[0], xs[1]]))
            && (|xs| == 1 && xs[0].LocalPost? ==> s.Post? && xs[0] == F.LocalPost(s.n, s.a.messageId, PathOf(s.a.path)))
            && (|xs| == 1 && s.Post? ==> xs[0].LocalPost?)
            && (|xs| == 2 ==> !xs[0].LocalPost? && !xs[1].LocalPost?)
  {
  }

  // ---- runs -----------------------------------------------------------------

  ghost predicate IsRun(w: World, steps: seq<Step>)
    decreases |steps|
  {
    SitesOk(w) && LinesRegistered(w)
    && (steps == [] || (Enabled(w, steps[0]) && IsRun(Next(w, steps[0]), steps[1..])))
  }

  ghost function Final(w: World, steps: seq<Step>): World
    requires IsRun(w, steps)
    decreases |steps|
  {
    if steps == [] then w else Final(Next(w, steps[0]), steps[1..])
  }

  /** m was never kept back on line i. */
  ghost predicate CleanLine(w: World, steps: seq<Step>, i: nat, m: D.MsgId)
    requires IsRun(w, steps)
    decreases |steps|
  {
    steps == []
    || ((i < |w.lines| ==> !KeepsBack(w, steps[0], i, m)) && CleanLine(Next(w, steps[0]), steps[1..], i, m))
  }

  ghost predicate HonestRun(w: World, steps: seq<Step>, m: D.MsgId)
    requires IsRun(w, steps)
    decreases |steps|
  {
    steps == [] || (HonestStep(w, steps[0], m) && HonestRun(Next(w, steps[0]), steps[1..], m))
  }

  lemma {:induction false} LeadsOn(f: F.Net, a: seq<F.Step>, g: F.Net, b: seq<F.Step>, h: F.Net)
    requires Leads(f, a, g) && Leads(g, b, h)
    ensures Leads(f, a + b, h)
    decreases |a|
  {
    if a == [] {
      assert a + b == b;
    } else {
      LeadsOn(F.Next(f, a[0]), a[1..], g, b, h);
      assert (a + b)[1..] == a[1..] + b;
    }
  }

  /** Every run of the network is a run of the flood. */
  lemma {:induction false} RunSimulated(w: World, f: F.Net, steps: seq<Step>) returns (fs: seq<F.Step>, g: F.Net)
    requires WorldOk(w) && Matches(w, f) && IsRun(w, steps)
    ensures Leads(f, fs, g) && WorldOk(Final(w, steps)) && Matches(Final(w, steps), g)
    decreases |steps|
  {
    if steps == [] {
      fs, g := [], f;
    } else {
      var h := StepSimulated(w, f, steps[0]);
      var rest;
      rest, g := RunSimulated(Next(w, steps[0]), h, steps[1..]);
      LeadsOn(f, Sim(w, f, steps[0]), h, rest, g);
      fs := Sim(w, f, steps[0]) + rest;
    }
  }

  /** The link of every line on which m was never kept back is clean. */
  ghost predicate CleanLinks(w: World, f: F.Net, steps: seq<Step>, g: F.Net, m: D.MsgId)
    requires IsRun(w, steps)
  {
    forall i: nat {:trigger CleanLine(w, steps, i, m)} |
      i < |g.links| && CleanLine(w, steps, i, m) && (i < |f.links| ==> G.LinkClean(f, f.links[i], m)) ::
      G.LinkClean(g, g.links[i], m)
  }

  lemma NewLineIsServed(w: World, s: Step, i: nat)
    requires SitesOk(w) && Enabled(w, s) && |w.lines| <= i < |Next(w, s).lines|
    ensures s.Serve?
  {
  }

  lemma NewLinkClean(f: F.Net, n: Id, peer: Id, g: F.Net, i: nat, m: D.MsgId)
    requires Leads(f, [F.AddLink(n, peer)], g) && |f.links| <= i < |g.links|
    ensures G.LinkClean(g, g.links[i], m)
  {
    LeadsOne(f, F.AddLink(n, peer), g);
    G.NewLinkIsLast(f, F.AddLink(n, peer), i);
  }

  lemma {:induction false} RunKeeps(w: World, f: F.Net, steps: seq<Step>, m: D.MsgId) returns (g: F.Net)
    requires Simulates(w, f) && IsRun(w, steps) && FP.SoundFor(f, m) && HonestRun(w, steps, m)
    ensures Simulates(Final(w, steps), g) && FP.SoundFor(g, m) && CleanLinks(w, f, steps, g, m)
    decreases |steps|
  {
    if steps == [] {
      g := f;
    } else {
      var s := steps[0];
      var v := Next(w, s);
      var h := StepSimulated(w, f, s);
      StepSound(w, f, s, h, m);
      g := RunKeeps(v, h, steps[1..], m);
      forall i: nat | i < |g.links| && CleanLine(w, steps, i, m) && (i < |f.links| ==> G.LinkClean(f, f.links[i], m))
        ensures G.LinkClean(g, g.links[i], m)
      {
        if i < |f.links| {
          StepClean(w, f, s, h, i, m);
        } else if i < |h.links| {
          NewLineIsServed(w, s, i);
          NewLinkClean(f, s.n, s.peer, h, i, m);
        }
        assert CleanLine(v, steps[1..], i, m);
      }
    }
  }

  // ---- completeness ---------------------------------------------------------

  /** Nothing stored and nobody served yet. */
  ghost predicate Start(w: World) {
    WorldOk(w) && w.lines == [] && w.strays == [] && forall n | n in w.sites :: w.sites[n].db.rows == map[]
  }

  ghost function FloodStart(w: World): F.Net
    requires WorldOk(w)
  {
    F.Net(map n | n in w.sites :: Blank(n, w.sites[n]), [], [], {}, {}, {}, {})
  }

  function Blank(n: Id, h: R.Hub): F.Node {
    F.Node(map[], if h.db.lastId > 0 then h.db.lastId else 0)
  }

  lemma StartSites(w: World)
    requires WorldOk(w) && forall n | n in w.sites :: w.sites[n].db.rows == map[]
    ensures SitesMatch(w, FloodStart(w)) && F.POSTED !in FloodStart(w).nodes
  {
    var f := FloodStart(w);
    forall n | n in w.sites ensures Represents(w.sites[n].db, f.nodes[n]) && n != F.POSTED {
      assert SiteOk(n, w.sites[n]);
    }
  }

  lemma StartMatches(w: World)
    requires Start(w)
    ensures F.Init(FloodStart(w)) && Simulates(w, FloodStart(w))
  {
    StartSites(w);
    assert F.Init(FloodStart(w));
    FP.InitOk(FloodStart(w));
  }

  /** Every run of a network of stores, from a start with nothing stored, is a run of
      the flood from its own start, and the flood's nodes are the stores. */
  lemma NetworkIsFlood(w: World, steps: seq<Step>) returns (fs: seq<F.Step>, g: F.Net)
    requires Start(w) && IsRun(w, steps)
    ensures F.Init(FloodStart(w)) && Leads(FloodStart(w), fs, g)
    ensures WorldOk(Final(w, steps)) && Matches(Final(w, steps), g)
  {
    StartMatches(w);
    fs, g := RunSimulated(w, FloodStart(w), steps);
  }

  /** Steps the nodes take by themselves. */
  predicate Own(s: Step) {
    s.Turn? || s.Receive? || s.Finish? || s.Fail? || s.Connect? || s.ReceiveStray? || s.DropStray?
  }

  /** Every line there is is connected, nothing is under way, and no worker has a
      next article.  A registered peer that is not served yet is no line. */
  ghost predicate AtRest(w: World) {
    w.strays == [] && forall i: nat | i < |w.lines| :: LineAtRest(w, i)
  }

  ghost predicate LineAtRest(w: World, i: nat) {
    OnLine(w, i) && w.lines[i].up && w.lines[i].wire.Quiet? && TurnOf(w, w.lines[i]).Idle?
  }

  /** GetPerms answers for every group of the article that each line has next. */
  ghost predicate PermsAnswer(w: World) {
    forall i: nat | i < |w.lines| :: LinePerms(w, i)
  }

  ghost predicate LinePerms(w: World, i: nat)
    requires i < |w.lines|
  {
    OnLine(w, i) ==> P.PermsKnown(w.sites[w.lines[i].src].db, D.PeerGroup(w.lines[i].src, w.lines[i].dst), w.lines[i].dst)
  }

  lemma StillLine(w: World, i: nat)
    requires i < |w.lines| && OnLine(w, i) && LinePerms(w, i) && forall s: Step | Own(s) :: !Enabled(w, s)
    ensures LineAtRest(w, i)
  {
    assert !Enabled(w, Connect(i)) && !Enabled(w, Fail(i)) && !Enabled(w, Finish(i)) && !Enabled(w, Turn(i));
  }

  lemma RestIsStill(w: World, s: Step)
    requires AtRest(w) && Own(s)
    ensures !Enabled(w, s)
  {
    if (s.Turn? || s.Receive? || s.Finish? || s.Fail? || s.Connect?) && s.i < |w.lines| {
      assert LineAtRest(w, s.i);
    }
  }

  /** The network is at rest exactly when no node can take a step by itself, as long
      as no worker has an article next for whose groups GetPerms has no answer, which
      stops it with a panic instead. */
  lemma RestMeans(w0: World, steps: seq<Step>, w: World)
    requires Start(w0) && IsRun(w0, steps) && w == Final(w0, steps) && PermsAnswer(w)
    ensures AtRest(w) <==> forall s: Step | Own(s) :: !Enabled(w, s)
  {
    if AtRest(w) {
      forall s: Step | Own(s) ensures !Enabled(w, s) {
        RestIsStill(w, s);
      }
    }
    if forall s: Step | Own(s) :: !Enabled(w, s) {
      var fs, g := NetworkIsFlood(w0, steps);
      assert w.strays == [] by {
        assert !Enabled(w, DropStray(0));
      }
      forall i: nat | i < |w.lines| ensures LineAtRest(w, i) {
        assert LineMatches(w, w.lines[i], g.links[i]);
        StillLine(w, i);
      }
    }
  }

  lemma LineDrained(w: World, g: F.Net, i: nat)
    requires SitesOk(w) && SitesMatch(w, g) && LinesMatch(w, g) && i < |w.lines| && LineAtRest(w, i)
    requires LinkOk(g, g.links[i])
    ensures G.Drained(g, g.links[i])
  {
    var l, k := w.lines[i], g.links[i];
    assert LineMatches(w, l, k);
    assert SiteOk(l.src, w.sites[l.src]);
    TurnRefinesOffer(w.sites[l.src].db, g.nodes[l.src], D.PeerGroup(l.src, l.dst), k);
  }

  /** Line i is through with m: its cursor is not below m's number at its sender. */
  predicate Through(w: World, i: nat, m: D.MsgId) {
    && i < |w.lines| && w.lines[i].src in w.sites
    && var db, c := w.sites[w.lines[i].src].db, CursorOf(w.sites[w.lines[i].src].db, w.lines[i].dst);
       c.Number? && (m in db.rows ==> db.rows[m].id <= c.n)
  }

  lemma ThroughIsPast(w: World, g: F.Net, i: nat, m: D.MsgId)
    requires SitesMatch(w, g) && LinesMatch(w, g) && i < |w.lines|
    ensures Through(w, i, m) <==> G.Past(g, g.links[i], m)
  {
    var l, k := w.lines[i], g.links[i];
    assert LineMatches(w, l, k);
    var db, n := w.sites[l.src].db, g.nodes[l.src];
    if Through(w, i, m) {
      forall num | num in n.arts && n.arts[num].mid == m ensures num <= k.cursor {
        RowOf(db, n, num);
      }
    }
    if G.Past(g, k, m) && m in db.rows {
      assert RowShown(db, n, m);
    }
  }

  lemma RestIsThrough(w: World, g: F.Net, i: nat, m: D.MsgId)
    requires Simulates(w, g) && i < |w.lines| && LineAtRest(w, i)
    ensures Through(w, i, m)
  {
    G.LinkFacts(g, i);
    LineDrained(w, g, i);
    G.DrainedIsPast(g, g.links[i], m);
    ThroughIsPast(w, g, i, m);
  }

  /** A way from a to b along lines, by their places. */
  predicate Route(w: World, a: Id, route: seq<nat>, b: Id)
    decreases |route|
  {
    if route == [] then a == b
    else route[0] < |w.lines| && w.lines[route[0]].src == a && Route(w, w.lines[route[0]].dst, route[1..], b)
  }

  predicate Within(route: seq<nat>, n: nat) {
    forall j | 0 <= j < |route| :: route[j] < n
  }

  function Links(g: F.Net, route: seq<nat>): seq<F.Link>
    requires Within(route, |g.links|)
  {
    if route == [] then [] else [g.links[route[0]]] + Links(g, route[1..])
  }

  lemma {:induction false} RouteClean(w: World, g: F.Net, m: D.MsgId, a: Id, route: seq<nat>, b: Id)
    requires LinesMatch(w, g) && Route(w, a, route, b) && Within(route, |g.links|)
    requires forall i | i in route :: i < |g.links| && G.LinkClean(g, g.links[i], m)
    ensures G.CleanRoute(g, m, a, Links(g, route), b)
    decreases |route|
  {
    if route != [] {
      var i := route[0];
      assert LineMatches(w, w.lines[i], g.links[i]);
      assert i in route;
      assert Links(g, route)[1..] == Links(g, route[1..]);
      RouteClean(w, g, m, w.lines[i].dst, route[1..], b);
    }
  }

  lemma {:induction false} RouteOnLines(w: World, a: Id, route: seq<nat>, b: Id)
    requires Route(w, a, route, b)
    ensures Within(route, |w.lines|)
    decreases |route|
  {
    if route != [] {
      RouteOnLines(w, w.lines[route[0]].dst, route[1..], b);
      forall j | 0 <= j < |route| ensures route[j] < |w.lines| {
        assert j > 0 ==> route[j] == route[1..][j - 1];
      }
    }
  }

  lemma FloodAtEnd(w: World, steps: seq<Step>, m: D.MsgId) returns (g: F.Net)
    requires Start(w) && IsRun(w, steps) && HonestRun(w, steps, m)
    ensures Simulates(Final(w, steps), g) && FP.SoundFor(g, m)
    ensures forall i: nat | i < |g.links| && CleanLine(w, steps, i, m) :: G.LinkClean(g, g.links[i], m)
  {
    StartMatches(w);
    var f := FloodStart(w);
    assert FP.SoundFor(f, m);
    g := RunKeeps(w, f, steps, m);
    assert CleanLinks(w, f, steps, g, m) && f.links == [];
  }

  /** What reaches a store.  A network of stores runs from a start with nothing
      stored, with any posts, turns, receipts, failures, interruptions, restarts and
      new peers in any order.  In every state it reaches, from a store that has m,
      every store has it that lines lead to which are through with m and on which m
      was never kept back, if the local posts of m named no other node without it in
      a Path of their own.  Other lines may be down, busy or broken for good. */
  lemma NetworkReaches(w: World, steps: seq<Step>, v: World, m: D.MsgId, a: Id, route: seq<nat>, b: Id)
    requires Start(w) && IsRun(w, steps) && HonestRun(w, steps, m) && v == Final(w, steps)
    requires a in v.sites && m in v.sites[a].db.rows && Route(v, a, route, b)
    requires forall i | i in route :: Through(v, i, m) && CleanLine(w, steps, i, m)
    ensures b in v.sites && m in v.sites[b].db.rows
  {
    var g := CleanEnd(w, steps, v, m, set i | i in route);
    Reaches(v, g, m, a, route, b);
  }

  /** Completeness of the relay: where the network has come to rest, every line is
      through with every article. */
  lemma NetworkComplete(w: World, steps: seq<Step>, v: World, m: D.MsgId, a: Id, route: seq<nat>, b: Id)
    requires Start(w) && IsRun(w, steps) && HonestRun(w, steps, m) && v == Final(w, steps)
    requires AtRest(v) && a in v.sites && m in v.sites[a].db.rows
    requires Route(v, a, route, b) && forall i | i in route :: CleanLine(w, steps, i, m)
    ensures b in v.sites && m in v.sites[b].db.rows
  {
    var g := CleanEnd(w, steps, v, m, {});
    RouteOnLines(v, a, route, b);
    forall i | i in route ensures Through(v, i, m) {
      assert LineAtRest(v, i);
      RestIsThrough(v, g, i, m);
    }
    NetworkReaches(w, steps, v, m, a, route, b);
  }

  lemma CleanEnd(w: World, steps: seq<Step>, v: World, m: D.MsgId, clean: set<nat>) returns (g: F.Net)
    requires Start(w) && IsRun(w, steps) && HonestRun(w, steps, m) && v == Final(w, steps)
    requires forall i | i in clean :: CleanLine(w, steps, i, m)
    ensures Simulates(v, g) && FP.SoundFor(g, m) && forall i | i in clean && i < |g.links| :: G.LinkClean(g, g.links[i], m)
  {
    g := FloodAtEnd(w, steps, m);
  }

  lemma CleanWay(v: World, g: F.Net, m: D.MsgId, a: Id, route: seq<nat>, b: Id)
    requires SitesMatch(v, g) && LinesMatch(v, g) && Route(v, a, route, b)
    requires forall i | i in route :: Through(v, i, m) && (i < |g.links| ==> G.LinkClean(g, g.links[i], m))
    ensures Within(route, |g.links|) && G.CleanRoute(g, m, a, Links(g, route), b)
    ensures forall k | k in Links(g, route) :: G.Past(g, k, m)
  {
    RouteOnLines(v, a, route, b);
    RouteClean(v, g, m, a, route, b);
    forall i: nat | i in route ensures G.Past(g, g.links[i], m) {
      ThroughIsPast(v, g, i, m);
    }
    AllLinks(g, route);
  }

  lemma {:induction false} AllLinks(g: F.Net, route: seq<nat>)
    requires Within(route, |g.links|)
    ensures forall k | k in Links(g, route) :: exists i | i in route :: i < |g.links| && k == g.links[i]
    decreases |route|
  {
    if route != [] {
      AllLinks(g, route[1..]);
      assert route[0] in route;
    }
  }

  lemma Reaches(v: World, g: F.Net, m: D.MsgId, a: Id, route: seq<nat>, b: Id)
    requires Simulates(v, g) && FP.SoundFor(g, m) && a in v.sites && m in v.sites[a].db.rows && Route(v, a, route, b)
    requires forall i | i in route :: Through(v, i, m) && (i < |g.links| ==> G.LinkClean(g, g.links[i], m))
    ensures b in v.sites && m in v.sites[b].db.rows
  {
    CleanWay(v, g, m, a, route, b);
    LinksReach(v, g, m, a, Links(g, route), b);
  }

  lemma LinksReach(v: World, g: F.Net, m: D.MsgId, a: Id, route: seq<F.Link>, b: Id)
    requires SitesMatch(v, g) && Ok(g) && FP.SoundFor(g, m) && a in v.sites && m in v.sites[a].db.rows
    requires G.CleanRoute(g, m, a, route, b) && forall k | k in route :: G.Past(g, k, m)
    ensures b in v.sites && m in v.sites[b].db.rows
  {
    RepresentsHolds(v.sites[a].db, g.nodes[a], m);
    G.CleanRouteDelivers(g, m, a, route, b);
    RepresentsHolds(v.sites[b].db, g.nodes[b], m);
  }

  // ---- termination ----------------------------------------------------------

  /** Every Message-Id that some store has. */
  function Held(w: World): set<D.MsgId> {
    set n, m | n in w.sites && m in w.sites[n].db.rows :: m
  }

  ghost predicate PostedSomewhere(f: F.Net) {
    forall m | m in f.posted :: exists n :: (n, m) in f.origins
  }

  lemma PostedStep(f: F.Net, x: F.Step)
    requires PostedSomewhere(f) && F.Enabled(f, x)
    ensures PostedSomewhere(F.Next(f, x))
  {
    var g := F.Next(f, x);
    forall m | m in g.posted ensures exists n :: (n, m) in g.origins {
      if m in f.posted {
        var n :| (n, m) in f.origins;
        assert (n, m) in g.origins;
      } else {
        assert (x.n, m) in g.origins;
      }
    }
  }

  lemma {:induction false} PostedRun(f: F.Net, fs: seq<F.Step>, g: F.Net)
    requires Ok(f) && PostedSomewhere(f) && Leads(f, fs, g)
    ensures Ok(g) && PostedSomewhere(g)
    decreases |fs|
  {
    if fs != [] {
      PostedStep(f, fs[0]);
      StepGrows(f, fs[0]);
      PostedRun(F.Next(f, fs[0]), fs[1..], g);
    }
  }

  lemma PostedBound(w: World, f: F.Net)
    requires SitesMatch(w, f) && PostedSomewhere(f) && forall o | o in f.origins :: F.Holds(f, o.0, o.1)
    ensures |f.posted| <= |Held(w)|
  {
    forall m | m in f.posted ensures m in Held(w) {
      var n :| (n, m) in f.origins;
      assert F.Holds(f, (n, m).0, (n, m).1);
      RepresentsHolds(w.sites[n].db, f.nodes[n], m);
    }
    SubsetBound(f.posted, Held(w));
  }

  lemma {:induction false} CostsOn(f: F.Net, a: seq<F.Step>, g: F.Net, b: seq<F.Step>)
    requires Leads(f, a, g) && F.IsRun(g, b)
    ensures F.IsRun(f, a + b) && G.Tolls(f, a + b) == G.Tolls(f, a) + G.Tolls(g, b)
    ensures G.QuietCount(a + b) == G.QuietCount(a) + G.QuietCount(b)
    decreases |a|
  {
    if a == [] {
      assert a + b == b;
    } else {
      CostsOn(F.Next(f, a[0]), a[1..], g, b);
      assert (a + b)[1..] == a[1..] + b && (a + b)[0] == a[0];
    }
  }

  lemma OneCost(f: F.Net, x: F.Step, g: F.Net)
    requires Leads(f, [x], g) && x.Quiet()
    ensures G.QuietCount([x]) == 1 && G.Tolls(f, [x]) == 0
  {
    LeadsOne(f, x, g);
    assert [x][1..] == [];
  }

  lemma TwoCost(f: F.Net, r: set<(Id, Id, D.MsgId)>, p: set<(Id, Id, D.MsgId)>, y: F.Step, g: F.Net)
    requires Leads(f, [F.Reconfigure(r, p), y], g) && y.Quiet()
    ensures G.QuietCount([F.Reconfigure(r, p), y]) == 1 && G.Tolls(f, [F.Reconfigure(r, p), y]) == 0
  {
    var x := F.Reconfigure(r, p);
    LeadsSplit(f, x, y, g);
    OneCost(F.Next(f, x), y, g);
    assert [x, y][1..] == [y];
  }

  /** An own step is one quiet step of the flood, free of tolls. */
  lemma OwnStepCosts(w: World, f: F.Net, s: Step, g: F.Net)
    requires Simulated(w, f, s, g) && Own(s)
    ensures G.QuietCount(Sim(w, f, s)) == 1 && G.Tolls(f, Sim(w, f, s)) == 0
  {
    var xs := Sim(w, f, s);
    if s.Turn? || s.Receive? || s.ReceiveStray? {
      TwoCost(f, xs[0].mayRead, xs[0].mayPost, xs[1], g);
      assert xs == [F.Reconfigure(xs[0].mayRead, xs[0].mayPost), xs[1]];
    } else {
      OneCost(f, xs[0], g);
    }
  }

  lemma {:induction false} OwnRunCosts(w: World, f: F.Net, steps: seq<Step>) returns (fs: seq<F.Step>)
    requires WorldOk(w) && Matches(w, f) && IsRun(w, steps) && forall s | s in steps :: Own(s)
    ensures F.IsRun(f, fs) && G.QuietCount(fs) == |steps| && G.Tolls(f, fs) == 0
    decreases |steps|
  {
    if steps == [] {
      fs := [];
    } else {
      var s := steps[0];
      assert s in steps;
      var h := StepSimulated(w, f, s);
      OwnStepCosts(w, f, s, h);
      var rest := OwnRunCosts(Next(w, s), h, steps[1..]);
      CostsOn(f, Sim(w, f, s), h, rest);
      fs := Sim(w, f, s) + rest;
    }
  }

  /** The relay stops.  Once nobody posts, peers, breaks a connection or restarts,
      the network takes at most three more steps for each line and article, one for
      each line and one for each stray post. */
  lemma NetworkStops(w: World, steps: seq<Step>, v: World, more: seq<Step>)
    requires Start(w) && IsRun(w, steps) && v == Final(w, steps)
    requires IsRun(v, more) && forall s | s in more :: Own(s)
    ensures |more| <= 3 * |v.lines| * |Held(v)| + |v.lines| + |v.strays|
  {
    StartMatches(w);
    var fs, g := NetworkIsFlood(w, steps);
    PostedRun(FloodStart(w), fs, g);
    OwnStops(v, g, more);
  }

  lemma FloodBound(g: F.Net, fs: seq<F.Step>)
    requires Ok(g) && F.IsRun(g, fs) && G.Tolls(g, fs) == 0
    ensures G.QuietCount(fs) <= 3 * |g.links| * |g.posted| + |g.links| + |g.loose|
  {
    G.FloodTerminates(g, fs);
    G.LinksCostBound(g.links, |g.posted|);
  }

  lemma OwnStops(v: World, g: F.Net, more: seq<Step>)
    requires Simulates(v, g) && PostedSomewhere(g) && IsRun(v, more) && forall s | s in more :: Own(s)
    ensures |more| <= 3 * |v.lines| * |Held(v)| + |v.lines| + |v.strays|
  {
    var fs := OwnRunCosts(v, g, more);
    FloodBound(g, fs);
    PostedBound(v, g);
    MoreHeld(|v.lines|, |g.posted|, |Held(v)|);
  }

  lemma MoreHeld(n: nat, p: nat, h: nat)
    requires p <= h
    ensures 3 * n * p <= 3 * n * h
  {
  }
}
