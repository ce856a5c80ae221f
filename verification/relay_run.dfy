/** A run of two stores: one post, from nothing stored to rest. */
module RelayRun {
  import opened Options
  import opened Text
  import D = ArticleDb
  import opened ArticleRefs
  import P = Peering
  import R = Registry
  import B = Backend
  import opened Refinement
  import opened Relays
  import opened RelaysFlood
  import opened RelaysComplete

  const READ_ONLY := D.Perms(true, false, false, false, false)

  /** Two nodes, a group of the first one's, and an article. */
  datatype Scene = Scene(a: Id, b: Id, g: D.GroupName, m: D.MsgId, sig: D.Sig) {
    predicate Ok() {
      && a != b && '!' !in a && '!' !in b && a != ".POSTED" && b != ".POSTED"
      && ',' !in g && TrimSpace(g) == g && D.Owner(g) == a && g != D.PeerGroup(a, b)
    }

    /** What a user at node a posts. */
    function Draft(): D.Article {
      D.Article(m, sig, a, g, "", "", [], [])
    }

    /** The article as node a files and sends it, and as node b files it. */
    function Sent(): D.Article {
      Draft().(path := a + "!.POSTED")
    }

    function Received(): D.Article {
      Draft().(path := b + "!" + (a + "!.POSTED"))
    }

    /** Node a has the group, which node b may read and no more, and node b as its peer. */
    function Left(): R.Hub {
      var peering := D.Group(2, map[], map["LastMessage" := D.Num(0)], map[]);
      var news := D.Group(1, map[], map[], map[b := READ_ONLY]);
      R.Hub(D.Db(a, map[], 0, map[], map[g := news, D.PeerGroup(a, b) := peering], 2, [b], map[]), {}, multiset{})
    }

    function Right(): R.Hub {
      R.Hub(D.Db(b, map[], 0, map[], map[g := D.Group(1, map[], map[], map[])], 1, [], map[]), {}, multiset{})
    }

    function LeftPosted(): R.Hub {
      Left().(db := B.FileOne(Left().db, Sent(), g))
    }

    function RightPosted(): R.Hub {
      Right().(db := B.FileOne(Right().db, Received(), g))
    }

    function Line(up: bool, wire: Wire): Relays.Line {
      Relays.Line(a, b, up, wire)
    }

    function Start(): World {
      World(map[a := Left(), b := Right()], [], [])
    }

    function Joined(up: bool): World {
      World(map[a := Left(), b := Right()], [Line(up, Quiet)], [])
    }

    function Posted(): World {
      World(map[a := LeftPosted(), b := Right()], [Line(true, Quiet)], [])
    }

    function OnTheWire(): World {
      World(map[a := LeftPosted(), b := Right()], [Line(true, Relays.Sent(1, Sent()))], [])
    }

    function Taken(): World {
      World(map[a := LeftPosted(), b := RightPosted()], [Line(true, Answered(1, Sent(), B.Posted(1)))], [])
    }

    function Done(): World {
      World(map[a := Written(LeftPosted(), b, 1), b := RightPosted()], [Line(true, Quiet)], [])
    }

    function PostStep(): Step {
      Post(a, Draft(), true, LeftPosted(), B.Posted(1))
    }

    function ReceiveStep(): Step {
      Receive(0, true, RightPosted(), B.Posted(1))
    }
  }

  lemma ScenesExist(m: D.MsgId, sig: D.Sig)
    ensures Scene("a", "b", "a.n", m, sig).Ok()
  {
    assert "a.n" == "a" + ['.'] + "n";
    SplitPrefix("a", "n", '.');
    assert "a" != "b" && D.PeerGroup("a", "b") == "a.peers.b";
    assert |"a.n"| == 3 && |"a.peers.b"| == 9;
  }

  // ---- the states -----------------------------------------------------------

  ghost predicate Good(w: World) {
    SitesOk(w) && LinesRegistered(w)
  }

  /** Two stores, and no line or the one from a to b. */
  lemma TwoSitesGood(c: Scene, x: R.Hub, y: R.Hub, lines: seq<Line>)
    requires c.Ok() && x.db.me == c.a && y.db.me == c.b && RowsOk(x.db) && RowsOk(y.db) && x.db.peers == [c.b]
    requires lines == [] || (|lines| == 1 && lines[0].src == c.a && lines[0].dst == c.b)
    ensures Good(World(map[c.a := x, c.b := y], lines, []))
  {
  }

  lemma RowsGood(c: Scene)
    requires c.Ok()
    ensures RowsOk(c.Left().db) && RowsOk(c.Right().db) && RowsOk(c.LeftPosted().db) && RowsOk(c.RightPosted().db)
    ensures RowsOk(Written(c.LeftPosted(), c.b, 1).db)
  {
    OneRowOk(c.LeftPosted().db, c.m, c.sig);
    OneRowOk(c.RightPosted().db, c.m, c.sig);
    OneRowOk(Written(c.LeftPosted(), c.b, 1).db, c.m, c.sig);
  }

  lemma OneRowOk(db: D.Db, m: D.MsgId, sig: D.Sig)
    requires db.rows == map[m := D.Row(1, sig, 1)] && db.lastId == 1
    ensures RowsOk(db)
  {
  }

  lemma StatesGood(c: Scene)
    requires c.Ok()
    ensures Good(c.Start()) && Good(c.Joined(false)) && Good(c.Joined(true)) && Good(c.Posted())
    ensures Good(c.OnTheWire()) && Good(c.Taken()) && Good(c.Done())
  {
    RowsGood(c);
    TwoSitesGood(c, c.Left(), c.Right(), []);
    TwoSitesGood(c, c.Left(), c.Right(), c.Joined(false).lines);
    TwoSitesGood(c, c.Left(), c.Right(), c.Joined(true).lines);
    TwoSitesGood(c, c.LeftPosted(), c.Right(), c.Posted().lines);
    TwoSitesGood(c, c.LeftPosted(), c.Right(), c.OnTheWire().lines);
    TwoSitesGood(c, c.LeftPosted(), c.RightPosted(), c.Taken().lines);
    TwoSitesGood(c, Written(c.LeftPosted(), c.b, 1), c.RightPosted(), c.Done().lines);
  }

  lemma AtZero(c: Scene)
    requires c.Ok()
    ensures NewPeersAtZero(c.Start())
  {
    assert CursorOf(c.Left().db, c.b) == D.Number(0);
    assert c.Left().db.peers == [c.b] && c.Right().db.peers == [];
  }

  lemma StartsEmpty(c: Scene)
    requires c.Ok() && Good(c.Start())
    ensures Start(c.Start())
  {
    AtZero(c);
    assert c.Left().db.rows == map[] && c.Right().db.rows == map[];
  }

  // ---- one step -------------------------------------------------------------

  ghost predicate Mine(w: World) {
    forall n | n in w.sites :: w.sites[n].db.me == n
  }

  /** A step that leads from w to v. */
  ghost predicate Goes(w: World, s: Step, v: World)
    requires Mine(w)
  {
    Enabled(w, s) && Next(w, s) == v
  }

  /** It keeps m back on no line, and names nobody in m's Path. */
  ghost predicate Opens(w: World, s: Step, m: D.MsgId)
    requires Enabled(w, s) && LinesRegistered(w)
  {
    HonestStep(w, s, m) && (0 < |w.lines| ==> !KeepsBack(w, s, 0, m))
  }

  lemma GoodMine(w: World)
    requires SitesOk(w)
    ensures Mine(w)
  {
    forall n | n in w.sites ensures w.sites[n].db.me == n {
      assert SiteOk(n, w.sites[n]);
    }
  }

  lemma ServeGoes(w: World, a: Id, b: Id)
    requires Mine(w) && w.lines == [] && a in w.sites && b in w.sites && b in w.sites[a].db.peers && a != b
    ensures Goes(w, Serve(a, b), w.(lines := [Line(a, b, false, Quiet)]))
  {
    assert w.lines + [Line(a, b, false, Quiet)] == [Line(a, b, false, Quiet)];
  }

  lemma ConnectGoes(w: World)
    requires Mine(w) && |w.lines| == 1 && !w.lines[0].up
    ensures Goes(w, Connect(0), w.(lines := [w.lines[0].(up := true)]))
  {
    var l := w.lines[0].(up := true);
    assert w.lines[0 := l] == [l];
  }

  lemma PostGoes(w: World, n: Id, a: D.Article, after: R.Hub, out: B.Outcome)
    requires Mine(w) && Takes(w, n, B.Session(n, B.Local), a, true, after, out)
    ensures Goes(w, Post(n, a, true, after, out), w.(sites := w.sites[n := after]))
  {
  }

  lemma TurnGoes(w: World, num: int, x: D.Article)
    requires Mine(w) && |w.lines| == 1 && w.lines[0].up && w.lines[0].wire.Quiet? && OnLine(w, 0)
    requires P.PermsKnown(w.sites[w.lines[0].src].db, D.PeerGroup(w.lines[0].src, w.lines[0].dst), w.lines[0].dst)
    requires TurnOf(w, w.lines[0]) == P.Attempted(num, x)
    ensures Goes(w, Turn(0), w.(lines := [w.lines[0].(wire := Sent(num, x))]))
  {
    var l := w.lines[0].(wire := Sent(num, x));
    assert w.lines[0 := l] == [l];
  }

  lemma ReceiveGoes(w: World, num: int, x: D.Article, after: R.Hub, out: B.Outcome)
    requires Mine(w) && |w.lines| == 1 && w.lines[0].wire == Sent(num, x)
    requires Takes(w, w.lines[0].dst, B.Session(w.lines[0].src, B.Tor), x, true, after, out)
    ensures Goes(w, Receive(0, true, after, out),
                 w.(sites := w.sites[w.lines[0].dst := after], lines := [w.lines[0].(wire := Answered(num, x, out))]))
  {
    var l := w.lines[0].(wire := Answered(num, x, out));
    assert w.lines[0 := l] == [l];
  }

  lemma FinishGoes(w: World, num: int)
    requires Mine(w) && |w.lines| == 1 && w.lines[0].wire.Answered? && w.lines[0].wire.num == num && OnLine(w, 0)
    ensures Goes(w, Finish(0), w.(sites := w.sites[w.lines[0].src := Written(w.sites[w.lines[0].src], w.lines[0].dst, num)],
                                 lines := [w.lines[0].(wire := Quiet)]))
  {
    var l := w.lines[0].(wire := Quiet);
    assert w.lines[0 := l] == [l];
  }

  /** Neither a failure nor a refusal, and no Path of one's own. */
  lemma StepOpens(w: World, s: Step, m: D.MsgId)
    requires Enabled(w, s) && LinesRegistered(w) && !s.Turn? && !s.Fail?
    requires (s.Post? ==> s.a.path == "") && (s.Receive? ==> s.out.Posted?)
    ensures Opens(w, s, m)
  {
  }

  lemma TurnOpens(w: World, m: D.MsgId)
    requires Enabled(w, Turn(0)) && LinesRegistered(w) && TurnOf(w, w.lines[0]).Attempted?
    ensures Opens(w, Turn(0), m)
  {
  }

  // ---- the scene's steps ----------------------------------------------------

  lemma PostTakes(c: Scene)
    requires c.Ok()
    ensures Takes(c.Joined(true), c.a, B.Session(c.a, B.Local), c.Draft(), true, c.LeftPosted(), B.Posted(1))
  {
    assert Split("", ' ') == [""];
    B.FiledInOne(c.Left().db, c.Sent(), c.g, c.a);
  }

  lemma SentPath(c: Scene)
    requires c.Ok()
    ensures Split(c.Sent().path, '!') == [c.a, ".POSTED"] && c.b !in Split(c.Sent().path, '!')
  {
    NewPathIs(c.a, B.Local, "");
  }

  lemma NextIsSent(c: Scene)
    requires c.Ok()
    ensures D.GetNextArticle(c.LeftPosted().db, 0) == D.Found(1, c.Sent())
  {
    assert D.IsNextRow(c.LeftPosted().db, 0, c.m);
    NextRowFound(c.LeftPosted().db, 0, c.m);
  }

  lemma BReads(c: Scene)
    requires c.Ok()
    ensures Split(c.g, ',') == [c.g] && P.Readable(c.LeftPosted().db, c.b, c.g)
    ensures D.GetPerms(c.LeftPosted().db, c.b, c.g) == Some(READ_ONLY)
  {
    SplitPlain(c.g, ',');
    assert P.MayRead(c.LeftPosted().db, c.b, Split(c.g, ',')[0]);
  }

  lemma TurnAttempts(c: Scene)
    requires c.Ok()
    ensures var w := c.Posted();
            && OnLine(w, 0) && P.PermsKnown(w.sites[c.a].db, D.PeerGroup(c.a, c.b), c.b)
            && TurnOf(w, w.lines[0]) == P.Attempted(1, c.Sent())
  {
    NextIsSent(c);
    SentPath(c);
    BReads(c);
    assert D.GroupConfigGetInt64(c.LeftPosted().db, D.PeerGroup(c.a, c.b), "LastMessage") == D.Number(0);
  }

  lemma ReceiveTakes(c: Scene)
    requires c.Ok()
    ensures Takes(c.OnTheWire(), c.b, B.Session(c.a, B.Tor), c.Sent(), true, c.RightPosted(), B.Posted(1))
  {
    assert Split("", ' ') == [""];
    assert B.MayPost(c.Right().db, c.a, c.g);
    B.FiledInOne(c.Right().db, c.Received(), c.g, c.a);
  }

  lemma LeftSteps(c: Scene)
    requires c.Ok() && Mine(c.Start()) && Mine(c.Joined(false))
    ensures Goes(c.Start(), Serve(c.a, c.b), c.Joined(false)) && Goes(c.Joined(false), Connect(0), c.Joined(true))
  {
    ServeGoes(c.Start(), c.a, c.b);
    ConnectGoes(c.Joined(false));
  }

  lemma PostStepGoes(c: Scene)
    requires c.Ok() && Mine(c.Joined(true))
    ensures Goes(c.Joined(true), c.PostStep(), c.Posted())
  {
    PostTakes(c);
    PostGoes(c.Joined(true), c.a, c.Draft(), c.LeftPosted(), B.Posted(1));
    Changed(c.a, c.Left(), c.b, c.Right(), c.LeftPosted());
  }

  lemma Changed(a: Id, x: R.Hub, b: Id, y: R.Hub, z: R.Hub)
    requires a != b
    ensures map[a := x, b := y][a := z] == map[a := z, b := y] && map[a := x, b := y][b := z] == map[a := x, b := z]
  {
  }

  lemma TurnStepGoes(c: Scene)
    requires c.Ok() && Mine(c.Posted())
    ensures Goes(c.Posted(), Turn(0), c.OnTheWire()) && TurnOf(c.Posted(), c.Posted().lines[0]).Attempted?
  {
    TurnAttempts(c);
    TurnGoes(c.Posted(), 1, c.Sent());
  }

  lemma ReceiveStepGoes(c: Scene)
    requires c.Ok() && Mine(c.OnTheWire())
    ensures Goes(c.OnTheWire(), c.ReceiveStep(), c.Taken())
  {
    ReceiveTakes(c);
    ReceiveGoes(c.OnTheWire(), 1, c.Sent(), c.RightPosted(), B.Posted(1));
    Changed(c.a, c.LeftPosted(), c.b, c.Right(), c.RightPosted());
  }

  lemma FinishStepGoes(c: Scene)
    requires c.Ok() && Mine(c.Taken())
    ensures Goes(c.Taken(), Finish(0), c.Done())
  {
    FinishGoes(c.Taken(), 1);
    Changed(c.a, c.LeftPosted(), c.b, c.RightPosted(), Written(c.LeftPosted(), c.b, 1));
  }

  lemma DoneRests(c: Scene)
    requires c.Ok()
    ensures AtRest(c.Done()) && c.m in c.Done().sites[c.a].db.rows
  {
    var db := c.Done().sites[c.a].db;
    assert D.GroupConfigGetInt64(db, D.PeerGroup(c.a, c.b), "LastMessage") == D.Number(1);
    forall m ensures !D.IsNextRow(db, 1, m) {
    }
    assert LineAtRest(c.Done(), 0);
  }

  // ---- the run --------------------------------------------------------------

  ghost predicate OpenRun(w: World, steps: seq<Step>, v: World, m: D.MsgId) {
    IsRun(w, steps) && Final(w, steps) == v && HonestRun(w, steps, m) && CleanLine(w, steps, 0, m)
  }

  lemma Prepend(w: World, s: Step, v: World, rest: seq<Step>, end: World, m: D.MsgId) returns (steps: seq<Step>)
    requires Good(w) && Mine(w) && Goes(w, s, v) && Opens(w, s, m) && OpenRun(v, rest, end, m)
    ensures OpenRun(w, steps, end, m)
  {
    steps := [s] + rest;
    assert steps[1..] == rest;
  }

  lemma FromFinish(c: Scene) returns (steps: seq<Step>)
    requires c.Ok() && Good(c.Taken()) && Good(c.Done())
    ensures OpenRun(c.Taken(), steps, c.Done(), c.m)
  {
    GoodMine(c.Taken());
    FinishStepGoes(c);
    StepOpens(c.Taken(), Finish(0), c.m);
    steps := Prepend(c.Taken(), Finish(0), c.Done(), [], c.Done(), c.m);
  }

  lemma FromReceive(c: Scene, rest: seq<Step>) returns (steps: seq<Step>)
    requires c.Ok() && Good(c.OnTheWire()) && OpenRun(c.Taken(), rest, c.Done(), c.m)
    ensures OpenRun(c.OnTheWire(), steps, c.Done(), c.m)
  {
    GoodMine(c.OnTheWire());
    ReceiveStepGoes(c);
    StepOpens(c.OnTheWire(), c.ReceiveStep(), c.m);
    steps := Prepend(c.OnTheWire(), c.ReceiveStep(), c.Taken(), rest, c.Done(), c.m);
  }

  lemma FromTurn(c: Scene, rest: seq<Step>) returns (steps: seq<Step>)
    requires c.Ok() && Good(c.Posted()) && OpenRun(c.OnTheWire(), rest, c.Done(), c.m)
    ensures OpenRun(c.Posted(), steps, c.Done(), c.m)
  {
    GoodMine(c.Posted());
    TurnStepGoes(c);
    TurnOpens(c.Posted(), c.m);
    steps := Prepend(c.Posted(), Turn(0), c.OnTheWire(), rest, c.Done(), c.m);
  }

  lemma FromPost(c: Scene, rest: seq<Step>) returns (steps: seq<Step>)
    requires c.Ok() && Good(c.Joined(true)) && OpenRun(c.Posted(), rest, c.Done(), c.m)
    ensures OpenRun(c.Joined(true), steps, c.Done(), c.m)
  {
    GoodMine(c.Joined(true));
    PostStepGoes(c);
    StepOpens(c.Joined(true), c.PostStep(), c.m);
    steps := Prepend(c.Joined(true), c.PostStep(), c.Posted(), rest, c.Done(), c.m);
  }

  lemma FromStart(c: Scene, rest: seq<Step>) returns (steps: seq<Step>)
    requires c.Ok() && Good(c.Start()) && Good(c.Joined(false)) && OpenRun(c.Joined(true), rest, c.Done(), c.m)
    ensures OpenRun(c.Start(), steps, c.Done(), c.m)
  {
    GoodMine(c.Start());
    GoodMine(c.Joined(false));
    LeftSteps(c);
    StepOpens(c.Joined(false), Connect(0), c.m);
    StepOpens(c.Start(), Serve(c.a, c.b), c.m);
    steps := Prepend(c.Joined(false), Connect(0), c.Joined(true), rest, c.Done(), c.m);
    steps := Prepend(c.Start(), Serve(c.a, c.b), c.Joined(false), steps, c.Done(), c.m);
  }

  lemma WholeRun(c: Scene) returns (steps: seq<Step>)
    requires c.Ok()
    ensures OpenRun(c.Start(), steps, c.Done(), c.m) && Start(c.Start())
  {
    StatesGood(c);
    steps := FromFinish(c);
    steps := FromReceive(c, steps);
    steps := FromTurn(c, steps);
    steps := FromPost(c, steps);
    steps := FromStart(c, steps);
    StartsEmpty(c);
  }

  /** What NetworkComplete asks for can be had at once: a run from nothing stored to
      rest, over a line that kept nothing back.  Node b may do nothing but read. */
  lemma OnePostArrives(c: Scene) returns (steps: seq<Step>)
    requires c.Ok()
    ensures Start(c.Start()) && IsRun(c.Start(), steps) && HonestRun(c.Start(), steps, c.m)
    ensures var v := Final(c.Start(), steps);
            && AtRest(v) && c.a in v.sites && c.m in v.sites[c.a].db.rows
            && Route(v, c.a, [0], c.b) && CleanLine(c.Start(), steps, 0, c.m)
            && c.b in v.sites && c.m in v.sites[c.b].db.rows
  {
    steps := WholeRun(c);
    DoneRests(c);
    assert [0][1..] == [];
    NetworkComplete(c.Start(), steps, c.Done(), c.m, c.a, [0], c.b);
  }
}
