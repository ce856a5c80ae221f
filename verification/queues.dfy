/** The two bounded command channels between receiving and sending
    (internal/peering/peering.go): when a node's queues hold posts up for good.

    A session that has stored an article hands a command to its node's peer set and
    answers only then.  The peer set's worker copies each command to every peer of
    the node, and a peer's worker takes commands one by one and posts in between.
    All three wait for room.  What is in the commands does not matter here. */
module Queues {
  import opened Sets

  const ROOM: nat := 10

  /** Working: between taking a command and knowing whether there is an article to
      post.  From Filing to Answered the worker waits for the answer to its post,
      which the receiving node files and then hands to its own peer set. */
  datatype Stage = Waiting | Working | Filing | Distributing | Answered

  /** cur: the link whose channel the command goes to next. */
  datatype Handing = Idle | Handing(cur: nat, rest: set<nat>)

  datatype Link = Link(src: nat, dst: nat, queued: nat, stage: Stage)

  /** waiting: sessions without a sender to answer, local ones above all, that wait
      to hand over their command. */
  datatype Node = Node(queued: nat, handing: Handing, waiting: nat)

  datatype Net = Net(nodes: seq<Node>, links: seq<Link>)

  datatype Step =
    | Take(i: nat)
    | Decide(i: nat, post: bool)
    | File(i: nat, stored: bool)
    | Enqueue(i: nat)
    | Answer(i: nat)
    | EnqueueLocal(n: nat)
    | Hand(n: nat, to: nat)
    | Give(n: nat, next: nat)
    | LocalPost(n: nat)
    | Refresh(i: nat)
    | Break(i: nat, stored: bool)
  {
    /** Steps the workers and sessions take by themselves. */
    predicate Own() {
      !LocalPost? && !Refresh? && !Break?
    }
  }

  function Outs(s: Net, n: nat): set<nat> {
    set i | 0 <= i < |s.links| && s.links[i].src == n
  }

  function Pending(h: Handing): set<nat> {
    match h
    case Idle => {}
    case Handing(cur, rest) => {cur} + rest
  }

  function NewLink(s: Net, i: nat, l: Link): Net
    requires i < |s.links|
  {
    s.(links := s.links[i := l])
  }

  function NewNode(s: Net, n: nat, q: Node): Net
    requires n < |s.nodes|
  {
    s.(nodes := s.nodes[n := q])
  }

  predicate IsLink(s: Net, i: nat) {
    i < |s.links| && s.links[i].src < |s.nodes| && s.links[i].dst < |s.nodes|
  }

  predicate Enabled(s: Net, step: Step) {
    match step
    case Take(i) => IsLink(s, i) && s.links[i].stage.Waiting? && s.links[i].queued > 0
    case Decide(i, _) => IsLink(s, i) && s.links[i].stage.Working?
    case File(i, _) => IsLink(s, i) && s.links[i].stage.Filing?
    case Enqueue(i) => IsLink(s, i) && s.links[i].stage.Distributing? && s.nodes[s.links[i].dst].queued < ROOM
    case Answer(i) => IsLink(s, i) && s.links[i].stage.Answered?
    case EnqueueLocal(n) => n < |s.nodes| && s.nodes[n].waiting > 0 && s.nodes[n].queued < ROOM
    case Hand(n, to) =>
      && n < |s.nodes| && s.nodes[n].handing.Idle? && s.nodes[n].queued > 0
      && (Outs(s, n) != {} ==> to in Outs(s, n))
    case Give(n, next) =>
      && n < |s.nodes| && s.nodes[n].handing.Handing?
      && IsLink(s, s.nodes[n].handing.cur) && s.links[s.nodes[n].handing.cur].queued < ROOM
      && (s.nodes[n].handing.rest != {} ==> next in s.nodes[n].handing.rest)
    case LocalPost(n) => n < |s.nodes|
    case Refresh(i) => IsLink(s, i) && s.links[i].queued < ROOM
    case Break(i, _) => IsLink(s, i) && (s.links[i].stage.Filing? || s.links[i].stage.Distributing?)
  }

  function Next(s: Net, step: Step): Net
    requires Enabled(s, step)
  {
    match step
    case Take(i) => NewLink(s, i, s.links[i].(queued := s.links[i].queued - 1, stage := Working))
    case Decide(i, post) => NewLink(s, i, s.links[i].(stage := if post then Filing else Waiting))
    case File(i, stored) => NewLink(s, i, s.links[i].(stage := if stored then Distributing else Answered))
    case Enqueue(i) =>
      var q := s.nodes[s.links[i].dst];
      NewLink(NewNode(s, s.links[i].dst, q.(queued := q.queued + 1)), i, s.links[i].(stage := Answered))
    case Answer(i) => NewLink(s, i, s.links[i].(stage := Waiting))
    case EnqueueLocal(n) =>
      var q := s.nodes[n];
      NewNode(s, n, q.(queued := q.queued + 1, waiting := q.waiting - 1))
    case Hand(n, to) =>
      var q := s.nodes[n];
      NewNode(s, n, q.(queued := q.queued - 1,
                       handing := if Outs(s, n) == {} then Idle else Handing(to, Outs(s, n) - {to})))
    case Give(n, next) =>
      var q := s.nodes[n];
      var l := s.links[q.handing.cur];
      NewLink(NewNode(s, n, q.(handing := if q.handing.rest == {} then Idle else Handing(next, q.handing.rest - {next}))),
              q.handing.cur, l.(queued := l.queued + 1))
    case LocalPost(n) => NewNode(s, n, s.nodes[n].(waiting := s.nodes[n].waiting + 1))
    case Refresh(i) => NewLink(s, i, s.links[i].(queued := s.links[i].queued + 1))
    case Break(i, stored) =>
      var l := s.links[i];
      var t := NewLink(s, i, l.(stage := Waiting));
      if l.stage.Distributing? || stored
      then NewNode(t, l.dst, s.nodes[l.dst].(waiting := s.nodes[l.dst].waiting + 1)) else t
  }

  ghost predicate IsRun(s: Net, steps: seq<Step>)
    decreases |steps|
  {
    steps == [] || (Enabled(s, steps[0]) && IsRun(Next(s, steps[0]), steps[1..]))
  }

  ghost function Final(s: Net, steps: seq<Step>): Net
    requires IsRun(s, steps)
    decreases |steps|
  {
    if steps == [] then s else Final(Next(s, steps[0]), steps[1..])
  }

  // ---- the invariant --------------------------------------------------------

  ghost predicate NodeOk(s: Net, n: nat)
    requires n < |s.nodes|
  {
    var q := s.nodes[n];
    q.queued <= ROOM && Pending(q.handing) <= Outs(s, n) && (q.handing.Handing? ==> q.handing.cur !in q.handing.rest)
  }

  ghost predicate Ok(s: Net) {
    && (forall i: nat | i < |s.links| :: IsLink(s, i) && s.links[i].queued <= ROOM)
    && (forall n: nat | n < |s.nodes| :: NodeOk(s, n))
  }

  lemma OutsKept(s: Net, step: Step, n: nat)
    requires Enabled(s, step)
    ensures |Next(s, step).links| == |s.links| && |Next(s, step).nodes| == |s.nodes|
    ensures forall i: nat | i < |s.links| :: Next(s, step).links[i].src == s.links[i].src && Next(s, step).links[i].dst == s.links[i].dst
    ensures Outs(Next(s, step), n) == Outs(s, n)
  {
  }

  lemma StepOk(s: Net, step: Step)
    requires Ok(s) && Enabled(s, step)
    ensures Ok(Next(s, step))
  {
    var t := Next(s, step);
    OutsKept(s, step, 0);
    forall n: nat | n < |t.nodes| ensures NodeOk(t, n) {
      OutsKept(s, step, n);
      assert NodeOk(s, n);
    }
  }

  // ---- jams -----------------------------------------------------------------

  /** Link k, still to be served by node n, is full, and its worker waits for a node
      of js to take a command. */
  predicate Blocks(s: Net, n: nat, k: nat, js: set<nat>)
    requires n < |s.nodes|
  {
    && k in Pending(s.nodes[n].handing) && k < |s.links|
    && s.links[k].queued == ROOM && s.links[k].stage.Distributing? && s.links[k].dst in js
  }

  /** js is jammed: each of its nodes has a full queue and is held up by a link that
      waits for another of its nodes. */
  ghost predicate Jam(s: Net, js: set<nat>) {
    js != {} && forall n {:trigger Held(s, n, js)} | n in js :: Held(s, n, js)
  }

  ghost predicate Held(s: Net, n: nat, js: set<nat>) {
    n < |s.nodes| && s.nodes[n].queued == ROOM && exists k: nat :: Blocks(s, n, k, js)
  }

  /** The step breaks a connection between two nodes of js. */
  predicate BreaksInside(s: Net, step: Step, js: set<nat>) {
    step.Break? && step.i < |s.links| && s.links[step.i].src in js && s.links[step.i].dst in js
  }

  /** A full link whose worker waits for a full node stays as it is. */
  lemma HeldLinkStays(s: Net, step: Step, k: nat)
    requires Enabled(s, step) && step != Break(k, true) && step != Break(k, false) && IsLink(s, k)
    requires s.links[k].queued == ROOM && s.links[k].stage.Distributing? && s.nodes[s.links[k].dst].queued == ROOM
    ensures k < |Next(s, step).links| && Next(s, step).links[k] == s.links[k]
  {
  }

  /** A full node that has yet to serve a full link stays full and has yet to serve it. */
  lemma HeldNodeStays(s: Net, step: Step, n: nat, k: nat)
    requires Enabled(s, step) && n < |s.nodes| && IsLink(s, k)
    requires s.nodes[n].queued == ROOM && k in Pending(s.nodes[n].handing) && s.links[k].queued == ROOM
    ensures n < |Next(s, step).nodes| && Next(s, step).nodes[n].queued == ROOM && k in Pending(Next(s, step).nodes[n].handing)
  {
  }

  lemma BlocksStays(s: Net, step: Step, n: nat, k: nat, js: set<nat>)
    requires Ok(s) && Enabled(s, step) && !BreaksInside(s, step, js) && n in js && n < |s.nodes| && Blocks(s, n, k, js)
    requires s.nodes[n].queued == ROOM && s.nodes[s.links[k].dst].queued == ROOM
    ensures n < |Next(s, step).nodes| && Next(s, step).nodes[n].queued == ROOM && Blocks(Next(s, step), n, k, js)
  {
    assert IsLink(s, k) && NodeOk(s, n) && k in Outs(s, n);
    HeldLinkStays(s, step, k);
    HeldNodeStays(s, step, n, k);
  }

  lemma JamStep(s: Net, step: Step, js: set<nat>)
    requires Ok(s) && Jam(s, js) && Enabled(s, step) && !BreaksInside(s, step, js)
    ensures Jam(Next(s, step), js)
  {
    var t := Next(s, step);
    forall n | n in js ensures Held(t, n, js) {
      assert Held(s, n, js);
      var k: nat :| Blocks(s, n, k, js);
      assert Held(s, s.links[k].dst, js);
      BlocksStays(s, step, n, k, js);
    }
  }

  /** The worker of link i waits for a node of js to take a command. */
  predicate Waits(s: Net, i: nat, js: set<nat>) {
    i < |s.links| && s.links[i].stage.Distributing? && s.links[i].dst in js
  }

  /** A node of js takes in the command of a stored post. */
  predicate TakesIn(s: Net, step: Step, js: set<nat>) {
    || (step.Enqueue? && step.i < |s.links| && s.links[step.i].dst in js)
    || (step.EnqueueLocal? && step.n in js)
  }

  /** No connection between two nodes of js breaks in the run. */
  ghost predicate Unbroken(s: Net, steps: seq<Step>, js: set<nat>)
    requires IsRun(s, steps)
    decreases |steps|
  {
    steps == [] || (!BreaksInside(s, steps[0], js) && Unbroken(Next(s, steps[0]), steps[1..], js))
  }

  ghost predicate NoneTakenIn(s: Net, steps: seq<Step>, js: set<nat>)
    requires IsRun(s, steps)
    decreases |steps|
  {
    steps == [] || (!TakesIn(s, steps[0], js) && NoneTakenIn(Next(s, steps[0]), steps[1..], js))
  }

  lemma JamTakesNothing(s: Net, step: Step, js: set<nat>)
    requires Jam(s, js) && Enabled(s, step)
    ensures !TakesIn(s, step, js)
  {
    assert forall n | n in js :: Held(s, n, js);
  }

  /** A jam lasts: whatever the workers do, and whatever is posted, its nodes stay
      jammed until a connection between two of them breaks, and no post that they
      store is answered, whether it waits already or comes later. */
  lemma {:induction false} JamLasts(s: Net, steps: seq<Step>, js: set<nat>)
    requires Ok(s) && Jam(s, js) && IsRun(s, steps) && Unbroken(s, steps, js)
    ensures Jam(Final(s, steps), js) && NoneTakenIn(s, steps, js)
    decreases |steps|
  {
    if steps != [] {
      JamStep(s, steps[0], js);
      JamTakesNothing(s, steps[0], js);
      StepOk(s, steps[0]);
      JamLasts(Next(s, steps[0]), steps[1..], js);
    }
  }

  // ---- exactly when work is left undone -------------------------------------

  /** No worker and no session can move. */
  ghost predicate Still(s: Net) {
    forall step: Step | step.Own() :: !Enabled(s, step)
  }

  /** A post is under way, or a command or a session waits. */
  predicate Busy(s: Net) {
    || (exists i: nat :: i < |s.links| && (s.links[i].queued > 0 || !s.links[i].stage.Waiting?))
    || (exists n: nat :: n < |s.nodes| && (s.nodes[n].queued > 0 || !s.nodes[n].handing.Idle? || s.nodes[n].waiting > 0))
  }

  lemma StillLink(s: Net, i: nat)
    requires Ok(s) && Still(s) && i < |s.links|
    ensures s.links[i].stage.Waiting? || s.links[i].stage.Distributing?
    ensures s.links[i].stage.Waiting? ==> s.links[i].queued == 0
    ensures s.links[i].stage.Distributing? ==> s.nodes[s.links[i].dst].queued == ROOM
  {
    assert !Enabled(s, Take(i)) && !Enabled(s, Decide(i, true)) && !Enabled(s, File(i, true));
    assert !Enabled(s, Enqueue(i)) && !Enabled(s, Answer(i));
    assert NodeOk(s, s.links[i].dst);
  }

  lemma StillNode(s: Net, n: nat)
    requires Ok(s) && Still(s) && n < |s.nodes|
    ensures s.nodes[n].handing.Idle? ==> s.nodes[n].queued == 0
    ensures s.nodes[n].waiting > 0 ==> s.nodes[n].queued == ROOM
    ensures s.nodes[n].handing.Handing? ==>
              s.nodes[n].handing.cur < |s.links| && s.links[s.nodes[n].handing.cur].queued == ROOM
  {
    assert NodeOk(s, n);
    assert !Enabled(s, EnqueueLocal(n));
    var outs := Outs(s, n);
    var to: nat := if i :| i in outs then i else 0;
    assert !Enabled(s, Hand(n, to));
    if s.nodes[n].handing.Handing? {
      var rest := s.nodes[n].handing.rest;
      assert rest <= outs && s.nodes[n].handing.cur in outs;
      var next: nat := if i :| i in rest then i else 0;
      assert !Enabled(s, Give(n, next));
    }
  }

  /** The exact condition for being stuck: where nobody can move, work is left
      undone if and only if some nodes are jammed. */
  lemma StuckExactly(s: Net)
    requires Ok(s) && Still(s)
    ensures Busy(s) <==> exists js :: Jam(s, js)
  {
    if Busy(s) {
      FullNodesJam(s);
    }
    if js :| Jam(s, js) {
      JamIsBusy(s, js);
    }
  }

  lemma JamIsBusy(s: Net, js: set<nat>)
    requires Jam(s, js)
    ensures Busy(s)
  {
    var n :| n in js;
    assert Held(s, n, js);
    assert s.nodes[n].queued > 0;
  }

  lemma FullNodesJam(s: Net)
    requires Ok(s) && Still(s) && Busy(s)
    ensures exists js :: Jam(s, js)
  {
    var js := set n | 0 <= n < |s.nodes| && s.nodes[n].queued == ROOM;
    forall n: nat | n < |s.nodes| && s.nodes[n].handing.Handing?
      ensures var k := s.nodes[n].handing.cur; Blocks(s, n, k, js)
    {
      StillNode(s, n);
      StillLink(s, s.nodes[n].handing.cur);
      assert IsLink(s, s.nodes[n].handing.cur);
    }
    forall n | n in js ensures Held(s, n, js) {
      StillNode(s, n);
      assert Blocks(s, n, s.nodes[n].handing.cur, js);
    }
    if i: nat :| i < |s.links| && (s.links[i].queued > 0 || !s.links[i].stage.Waiting?) {
      StillLink(s, i);
      assert IsLink(s, i) && s.links[i].dst in js;
    } else {
      var n: nat :| n < |s.nodes| && (s.nodes[n].queued > 0 || !s.nodes[n].handing.Idle? || s.nodes[n].waiting > 0);
      StillNode(s, n);
    }
    assert Jam(s, js);
  }

  // ---- only a cycle of links can jam ----------------------------------------

  /** Every link goes to a node of lower rank. */
  ghost predicate Ranked(s: Net, rank: seq<nat>) {
    && |rank| == |s.nodes|
    && forall i: nat | i < |s.links| :: IsLink(s, i) && rank[s.links[i].dst] < rank[s.links[i].src]
  }

  /** Where the links go down in some ranking of the nodes there is no jam; two
      nodes that peer with each other are the shortest cycle. */
  lemma JamNeedsCycle(s: Net, js: set<nat>, rank: seq<nat>)
    requires Ok(s) && Ranked(s, rank)
    ensures !Jam(s, js)
  {
    if Jam(s, js) {
      var n :| n in js;
      assert Held(s, n, js);
      DownTheJam(s, js, rank, n);
    }
  }

  lemma NextInJam(s: Net, js: set<nat>, rank: seq<nat>, n: nat) returns (m: nat)
    requires Ok(s) && Ranked(s, rank) && Jam(s, js) && n in js
    ensures m in js && m < |rank| && n < |rank| && rank[m] < rank[n]
  {
    assert Held(s, n, js);
    var k: nat :| Blocks(s, n, k, js);
    assert NodeOk(s, n) && k in Outs(s, n);
    m := s.links[k].dst;
    assert IsLink(s, k);
  }

  lemma {:induction false} DownTheJam(s: Net, js: set<nat>, rank: seq<nat>, n: nat)
    requires Ok(s) && Ranked(s, rank) && Jam(s, js) && n in js
    requires n < |rank|
    ensures false
    decreases rank[n]
  {
    var m := NextInJam(s, js, rank, n);
    DownTheJam(s, js, rank, m);
  }

  // ---- the workers come to a standstill -------------------------------------

  /** Steps a command costs from the channel of a link on. */
  const COMMAND_COST := 4

  /** Steps a command costs from the queue of a node on. */
  function QueueCost(s: Net): nat {
    1 + (1 + COMMAND_COST) * |s.links|
  }

  function PhaseCost(p: Stage, q: nat): nat {
    match p
    case Waiting => 0
    case Working => 3
    case Filing => 2
    case Distributing => 2 + q
    case Answered => 1
  }

  function LinksCost(links: seq<Link>, q: nat): nat {
    if links == [] then 0
    else COMMAND_COST * links[0].queued + PhaseCost(links[0].stage, q) + LinksCost(links[1..], q)
  }

  function NodeCost(n: Node, q: nat): nat {
    q * n.queued + (1 + q) * n.waiting + (1 + COMMAND_COST) * |Pending(n.handing)|
  }

  function NodesCost(nodes: seq<Node>, q: nat): nat {
    if nodes == [] then 0 else NodeCost(nodes[0], q) + NodesCost(nodes[1..], q)
  }

  function Measure(s: Net): nat {
    LinksCost(s.links, QueueCost(s)) + NodesCost(s.nodes, QueueCost(s))
  }

  /** What a step adds to the work: a stored article one command for a node, a local
      post a session with one, and so on. */
  function Toll(s: Net, step: Step): nat {
    match step
    case File(_, stored) => if stored then 1 + QueueCost(s) else 0
    case LocalPost(_) => 1 + QueueCost(s)
    case Refresh(_) => COMMAND_COST
    case Break(_, _) => 1 + QueueCost(s)
    case _ => 0
  }

  lemma {:induction false} LinksCostUpdate(links: seq<Link>, i: nat, l: Link, q: nat)
    requires i < |links|
    ensures LinksCost(links[i := l], q) + COMMAND_COST * links[i].queued + PhaseCost(links[i].stage, q)
            == LinksCost(links, q) + COMMAND_COST * l.queued + PhaseCost(l.stage, q)
    decreases |links|
  {
    if i == 0 {
      assert links[0 := l][1..] == links[1..];
    } else {
      LinksCostUpdate(links[1..], i - 1, l, q);
      assert links[i := l][1..] == links[1..][i - 1 := l];
    }
  }

  lemma {:induction false} NodesCostUpdate(nodes: seq<Node>, n: nat, x: Node, q: nat)
    requires n < |nodes|
    ensures NodesCost(nodes[n := x], q) + NodeCost(nodes[n], q) == NodesCost(nodes, q) + NodeCost(x, q)
    decreases |nodes|
  {
    if n == 0 {
      assert nodes[0 := x][1..] == nodes[1..];
    } else {
      NodesCostUpdate(nodes[1..], n - 1, x, q);
      assert nodes[n := x][1..] == nodes[1..][n - 1 := x];
    }
  }

  lemma OutsBound(s: Net, n: nat)
    ensures |Outs(s, n)| <= |s.links|
  {
    IntervalBound(Outs(s, n), 0, |s.links| - 1);
  }

  lemma OneQueued(n: Node, q: nat)
    ensures NodeCost(n.(queued := n.queued + 1), q) == NodeCost(n, q) + q
    ensures NodeCost(n.(waiting := n.waiting + 1), q) == NodeCost(n, q) + 1 + q
  {
  }

  lemma HandCost(s: Net, n: nat, to: nat)
    requires Enabled(s, Hand(n, to))
    ensures NodeCost(Next(s, Hand(n, to)).nodes[n], QueueCost(s)) + 1 <= NodeCost(s.nodes[n], QueueCost(s))
  {
    var q, old', new' := QueueCost(s), s.nodes[n], Next(s, Hand(n, to)).nodes[n];
    OneQueued(old'.(queued := old'.queued - 1), q);
    OutsBound(s, n);
    if Outs(s, n) != {} {
      assert {to} + (Outs(s, n) - {to}) == Outs(s, n);
    }
    assert Pending(old'.handing) == {} && Pending(new'.handing) == Outs(s, n);
  }

  lemma GiveCost(s: Net, n: nat, next: nat)
    requires Enabled(s, Give(n, next)) && NodeOk(s, n)
    ensures n < |Next(s, Give(n, next)).nodes|
    ensures NodeCost(Next(s, Give(n, next)).nodes[n], QueueCost(s)) + 1 + COMMAND_COST == NodeCost(s.nodes[n], QueueCost(s))
  {
    var cur, rest := s.nodes[n].handing.cur, s.nodes[n].handing.rest;
    assert |{cur} + rest| == 1 + |rest|;
    if rest != {} {
      assert {next} + (rest - {next}) == rest;
    }
  }

  /** Every own step lowers the measure by at least one, but for its toll. */
  lemma StepCost(s: Net, step: Step)
    requires Ok(s) && Enabled(s, step)
    ensures QueueCost(Next(s, step)) == QueueCost(s)
    ensures Measure(Next(s, step)) + (if step.Own() then 1 else 0) <= Measure(s) + Toll(s, step)
  {
    OutsKept(s, step, 0);
    if step.Enqueue? {
      EnqueueCost(s, step.i);
    } else if step.Give? {
      assert NodeOk(s, step.n);
      GiveStepCost(s, step.n, step.next);
    } else if step.Break? {
      BreakCost(s, step.i, step.stored);
    } else if step.EnqueueLocal? || step.Hand? || step.LocalPost? {
      NodeStepCost(s, step);
    } else {
      LinksCostUpdate(s.links, step.i, Next(s, step).links[step.i], QueueCost(s));
    }
  }

  lemma NodeStepCost(s: Net, step: Step)
    requires Ok(s) && Enabled(s, step) && (step.EnqueueLocal? || step.Hand? || step.LocalPost?)
    ensures Measure(Next(s, step)) + (if step.Own() then 1 else 0) <= Measure(s) + Toll(s, step)
  {
    var n, q, t := step.n, QueueCost(s), Next(s, step);
    NodesCostUpdate(s.nodes, n, t.nodes[n], q);
    match step {
      case EnqueueLocal(_) =>
        OneQueued(s.nodes[n], q);
        OneQueued(t.nodes[n], q);
        assert t.nodes[n].(waiting := t.nodes[n].waiting + 1) == s.nodes[n].(queued := s.nodes[n].queued + 1);
      case Hand(_, to) => HandCost(s, n, to);
      case LocalPost(_) => OneQueued(s.nodes[n], q);
    }
  }

  lemma EnqueueCost(s: Net, i: nat)
    requires Enabled(s, Enqueue(i))
    ensures Measure(Next(s, Enqueue(i))) + 1 <= Measure(s)
  {
    var n, q, t := s.links[i].dst, QueueCost(s), Next(s, Enqueue(i));
    LinksCostUpdate(s.links, i, t.links[i], q);
    NodesCostUpdate(s.nodes, n, t.nodes[n], q);
    OneQueued(s.nodes[n], q);
  }

  lemma GiveStepCost(s: Net, n: nat, next: nat)
    requires Enabled(s, Give(n, next)) && NodeOk(s, n)
    ensures Measure(Next(s, Give(n, next))) + 1 <= Measure(s)
  {
    var cur, q, t := s.nodes[n].handing.cur, QueueCost(s), Next(s, Give(n, next));
    LinksCostUpdate(s.links, cur, t.links[cur], q);
    NodesCostUpdate(s.nodes, n, t.nodes[n], q);
    GiveCost(s, n, next);
  }

  lemma BreakCost(s: Net, i: nat, stored: bool)
    requires Enabled(s, Break(i, stored))
    ensures Measure(Next(s, Break(i, stored))) <= Measure(s) + 1 + QueueCost(s)
  {
    var n, q, t := s.links[i].dst, QueueCost(s), Next(s, Break(i, stored));
    LinksCostUpdate(s.links, i, t.links[i], q);
    if s.links[i].stage.Distributing? || stored {
      NodesCostUpdate(s.nodes, n, t.nodes[n], q);
      OneQueued(s.nodes[n], q);
    }
  }

  function OwnCount(steps: seq<Step>): nat {
    if steps == [] then 0 else (if steps[0].Own() then 1 else 0) + OwnCount(steps[1..])
  }

  ghost function Tolls(s: Net, steps: seq<Step>): nat
    requires IsRun(s, steps)
    decreases |steps|
  {
    if steps == [] then 0 else Toll(s, steps[0]) + Tolls(Next(s, steps[0]), steps[1..])
  }

  /** With finitely many articles stored, the workers come to a standstill; and
      there StuckExactly says whether work is left. */
  lemma {:induction false} WorkersStop(s: Net, steps: seq<Step>)
    requires Ok(s) && IsRun(s, steps)
    ensures OwnCount(steps) <= Measure(s) + Tolls(s, steps)
    decreases |steps|
  {
    if steps != [] {
      StepCost(s, steps[0]);
      StepOk(s, steps[0]);
      WorkersStop(Next(s, steps[0]), steps[1..]);
    }
  }

  // ---- two nodes do jam -----------------------------------------------------

  ghost predicate Leads(s: Net, steps: seq<Step>, t: Net) {
    IsRun(s, steps) && Final(s, steps) == t && forall step | step in steps :: !step.Break?
  }

  lemma OneStep(s: Net, step: Step)
    requires Enabled(s, step) && !step.Break?
    ensures Leads(s, [step], Next(s, step))
  {
    assert [step][1..] == [];
  }

  lemma {:induction false} Then(s: Net, a: seq<Step>, t: Net, b: seq<Step>, u: Net)
    requires Leads(s, a, t) && Leads(t, b, u)
    ensures Leads(s, a + b, u)
    decreases |a|
  {
    if a == [] {
      assert a + b == b;
    } else {
      Then(Next(s, a[0]), a[1..], t, b, u);
      assert (a + b)[1..] == a[1..] + b;
    }
  }

  /** Two nodes that peer with each other. */
  predicate Pair(s: Net) {
    |s.nodes| == 2 && |s.links| == 2 && forall n: nat | n < 2 :: s.links[n].src == n && s.links[n].dst == 1 - n
  }

  const NOBODY := Node(0, Idle, 0)

  const QUIET := Net([NOBODY, NOBODY], [Link(0, 1, 0, Waiting), Link(1, 0, 0, Waiting)])

  lemma OnlyOut(s: Net, n: nat)
    requires Pair(s) && n < 2
    ensures Outs(s, n) == {n} && Outs(s, n) - {n} == {}
  {
    forall i | i in Outs(s, n) ensures i == n {
      assert s.links[i].src == i;
    }
    assert n in Outs(s, n);
  }

  /** A local post's command goes all the way to the one peer's channel. */
  lemma Feed(s: Net, n: nat) returns (steps: seq<Step>)
    requires Pair(s) && n < 2 && s.nodes[n] == NOBODY && s.links[n].queued < ROOM
    ensures Leads(s, steps, NewLink(s, n, s.links[n].(queued := s.links[n].queued + 1)))
  {
    var q;
    steps, q := Offer(s, n);
    OnlyOut(q, n);
    OneStep(q, Hand(n, n));
    var t := Next(q, Hand(n, n));
    Then(s, steps, q, [Hand(n, n)], t);
    assert t.nodes[n] == Node(0, Handing(n, {}), 0);
    OneStep(t, Give(n, 0));
    Then(s, steps + [Hand(n, n)], t, [Give(n, 0)], Next(t, Give(n, 0)));
    steps := steps + [Hand(n, n)] + [Give(n, 0)];
    assert Next(t, Give(n, 0)) == NewLink(s, n, s.links[n].(queued := s.links[n].queued + 1));
  }

  /** A local post hands its command to its node. */
  lemma Offer(s: Net, n: nat) returns (steps: seq<Step>, t: Net)
    requires n < |s.nodes| && s.nodes[n].queued < ROOM && s.nodes[n].waiting == 0
    ensures t == NewNode(s, n, s.nodes[n].(queued := s.nodes[n].queued + 1)) && Leads(s, steps, t)
  {
    var r := Next(s, LocalPost(n));
    OneStep(s, LocalPost(n));
    OneStep(r, EnqueueLocal(n));
    t := Next(r, EnqueueLocal(n));
    Then(s, [LocalPost(n)], r, [EnqueueLocal(n)], t);
    steps := [LocalPost(n)] + [EnqueueLocal(n)];
  }

  lemma {:induction false} FeedMany(s: Net, n: nat, k: nat) returns (steps: seq<Step>)
    requires Pair(s) && n < 2 && s.nodes[n] == NOBODY && s.links[n].queued + k <= ROOM
    ensures Leads(s, steps, NewLink(s, n, s.links[n].(queued := s.links[n].queued + k)))
    decreases k
  {
    if k == 0 {
      steps := [];
      assert NewLink(s, n, s.links[n].(queued := s.links[n].queued)) == s;
    } else {
      var some := Feed(s, n);
      var t := NewLink(s, n, s.links[n].(queued := s.links[n].queued + 1));
      var more := FeedMany(t, n, k - 1);
      Then(s, some, t, more, NewLink(t, n, t.links[n].(queued := t.links[n].queued + (k - 1))));
      steps := some + more;
    }
  }

  lemma {:induction false} OfferMany(s: Net, n: nat, k: nat) returns (steps: seq<Step>)
    requires n < |s.nodes| && s.nodes[n].queued + k <= ROOM && s.nodes[n].waiting == 0
    ensures Leads(s, steps, NewNode(s, n, s.nodes[n].(queued := s.nodes[n].queued + k)))
    decreases k
  {
    if k == 0 {
      steps := [];
      assert NewNode(s, n, s.nodes[n].(queued := s.nodes[n].queued)) == s;
    } else {
      var some, t := Offer(s, n);
      var more := OfferMany(t, n, k - 1);
      Then(s, some, t, more, NewNode(t, n, t.nodes[n].(queued := t.nodes[n].queued + (k - 1))));
      steps := some + more;
    }
  }

  /** A worker starts a post. */
  lemma StartPost(s: Net, n: nat) returns (steps: seq<Step>)
    requires Pair(s) && n < 2 && s.nodes[n] == NOBODY && s.links[n].queued == 0 && s.links[n].stage.Waiting?
    ensures Leads(s, steps, NewLink(s, n, s.links[n].(stage := Filing)))
  {
    steps := Feed(s, n);
    var a := NewLink(s, n, s.links[n].(queued := 1));
    OneStep(a, Take(n));
    var b := Next(a, Take(n));
    Then(s, steps, a, [Take(n)], b);
    OneStep(b, Decide(n, true));
    Then(s, steps + [Take(n)], b, [Decide(n, true)], Next(b, Decide(n, true)));
    steps := steps + [Take(n)] + [Decide(n, true)];
    assert Next(b, Decide(n, true)) == NewLink(s, n, s.links[n].(stage := Filing));
  }

  function Laden(s: Net, n: nat): Net
    requires n < |s.nodes| && n < |s.links|
  {
    NewNode(NewLink(s, n, s.links[n].(queued := ROOM, stage := Filing)), n, Node(ROOM, Handing(n, {}), 0))
  }

  lemma FillChannel(s: Net, n: nat) returns (steps: seq<Step>)
    requires Pair(s) && n < 2 && s.nodes[n] == NOBODY && s.links[n].queued == 0 && s.links[n].stage.Waiting?
    ensures Leads(s, steps, NewLink(s, n, s.links[n].(queued := ROOM, stage := Filing)))
  {
    steps := StartPost(s, n);
    var a := NewLink(s, n, s.links[n].(stage := Filing));
    var more := FeedMany(a, n, ROOM);
    var b := NewLink(a, n, a.links[n].(queued := ROOM));
    Then(s, steps, a, more, b);
    steps := steps + more;
    assert b == NewLink(s, n, s.links[n].(queued := ROOM, stage := Filing));
  }

  lemma FillNode(s: Net, n: nat) returns (steps: seq<Step>)
    requires Pair(s) && n < 2 && s.nodes[n] == NOBODY
    ensures Leads(s, steps, NewNode(s, n, Node(ROOM, Handing(n, {}), 0)))
  {
    var c;
    steps, c := Offer(s, n);
    OnlyOut(c, n);
    OneStep(c, Hand(n, n));
    var d := Next(c, Hand(n, n));
    Then(s, steps, c, [Hand(n, n)], d);
    steps := steps + [Hand(n, n)];
    assert d.nodes[n] == Node(0, Handing(n, {}), 0);
    var more := OfferMany(d, n, ROOM);
    var e := NewNode(d, n, d.nodes[n].(queued := ROOM));
    Then(s, steps, d, more, e);
    steps := steps + more;
    assert e == NewNode(s, n, Node(ROOM, Handing(n, {}), 0));
  }

  /** Local posts fill the channel of a worker that posts, and then the node's own. */
  lemma Load(s: Net, n: nat) returns (steps: seq<Step>)
    requires Pair(s) && n < 2 && s.nodes[n] == NOBODY && s.links[n].queued == 0 && s.links[n].stage.Waiting?
    ensures Leads(s, steps, Laden(s, n))
  {
    steps := FillChannel(s, n);
    var b := NewLink(s, n, s.links[n].(queued := ROOM, stage := Filing));
    var more := FillNode(b, n);
    Then(s, steps, b, more, Laden(s, n));
    steps := steps + more;
  }

  /** From rest, two nodes that peer with each other jam: each posts to the other
      while its own users fill its queues, which hold ten commands each. */
  lemma TwoNodesJam() returns (steps: seq<Step>, t: Net)
    ensures Ok(QUIET) && Leads(QUIET, steps, t) && Jam(t, {0, 1})
    ensures |t.nodes| == 2 && |t.links| == 2
    ensures forall n: nat | n < 2 :: Waits(t, n, {0, 1}) && t.nodes[n].queued == 10 && t.links[n].queued == 10
  {
    steps := Load(QUIET, 0);
    var a := Laden(QUIET, 0);
    var more := Load(a, 1);
    var b := Laden(a, 1);
    Then(QUIET, steps, a, more, b);
    steps := steps + more;
    OneStep(b, File(0, true));
    var c := Next(b, File(0, true));
    Then(QUIET, steps, b, [File(0, true)], c);
    OneStep(c, File(1, true));
    t := Next(c, File(1, true));
    Then(QUIET, steps + [File(0, true)], c, [File(1, true)], t);
    steps := steps + [File(0, true)] + [File(1, true)];
    assert Blocks(t, 0, 0, {0, 1}) && Blocks(t, 1, 1, {0, 1});
    assert Held(t, 0, {0, 1}) && Held(t, 1, {0, 1});
  }
}
