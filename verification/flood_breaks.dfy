/** A connection that breaks while both nodes run on.  The sender keeps the
    connection it had until it is started anew (Peer.Connect and Peer.SendMessages,
    internal/peering/peering.go): every post on it fails, and the cursor moves on. */
module FloodBreaks {
  import opened Flood
  import opened FloodSafety
  import opened FloodPaths
  import opened FloodProgress

  /** Link i is broken throughout: nothing that is sent on it arrives, and its sender
      is not started anew. */
  predicate Broken(steps: seq<Step>, i: nat) {
    forall step | step in steps :: step != Receive(i) && step != Interrupt(i)
  }

  /** The link did not pass the article on: withheld for want of permission, or lost. */
  predicate KeptBack(l: Link, num: nat)
    requires num in l.verdicts
  {
    l.verdicts[num].PermSkipped? || l.verdicts[num].Failed?
  }

  /** What the link has decided since it had the verdicts before, it kept back or
      skipped for the Path, but for the article that the peer had answered already. */
  predicate NothingPassed(l: Link, before: map<nat, Verdict>, answered: nat) {
    && (l.phase.Answered? ==> l.phase.num == answered)
    && forall num | num in l.verdicts && num !in before && num != answered :: KeptBack(l, num) || l.verdicts[num].PathSkipped?
  }

  lemma BrokenStep(s: Net, step: Step, i: nat, before: map<nat, Verdict>, answered: nat)
    requires i < |s.links| && Enabled(s, step) && step != Receive(i) && step != Interrupt(i)
    requires NothingPassed(s.links[i], before, answered)
    ensures i < |Next(s, step).links| && NothingPassed(Next(s, step).links[i], before, answered)
  {
  }

  lemma {:induction false} BrokenRun(s: Net, steps: seq<Step>, i: nat, before: map<nat, Verdict>, answered: nat)
    requires i < |s.links| && IsRun(s, steps) && Broken(steps, i) && NothingPassed(s.links[i], before, answered)
    ensures i < |Final(s, steps).links| && NothingPassed(Final(s, steps).links[i], before, answered)
    decreases |steps|
  {
    if steps != [] {
      assert steps[0] in steps;
      assert forall step | step in steps[1..] :: step in steps;
      BrokenStep(s, steps[0], i, before, answered);
      BrokenRun(Next(s, steps[0]), steps[1..], i, before, answered);
    }
  }

  lemma VerdictStep(s: Net, step: Step, i: nat, num: nat)
    requires i < |s.links| && LinkOk(s, s.links[i]) && Enabled(s, step) && num in s.links[i].verdicts
    ensures i < |Next(s, step).links|
    ensures var l, k := s.links[i], Next(s, step).links[i];
            k.src == l.src && k.dst == l.dst && num in k.verdicts && k.verdicts[num] == l.verdicts[num]
  {
  }

  /** What a link has decided it never takes up again, restarts included. */
  lemma {:induction false} VerdictStays(s: Net, steps: seq<Step>, i: nat, num: nat)
    requires Ok(s) && i < |s.links| && IsRun(s, steps) && num in s.links[i].verdicts
    ensures i < |Final(s, steps).links|
    ensures var l, k := s.links[i], Final(s, steps).links[i];
            k.src == l.src && k.dst == l.dst && num in k.verdicts && k.verdicts[num] == l.verdicts[num]
    decreases |steps|
  {
    if steps != [] {
      LinkFacts(s, i);
      VerdictStep(s, steps[0], i, num);
      StepOk(s, steps[0]);
      VerdictStays(Next(s, steps[0]), steps[1..], i, num);
    }
  }

  lemma DecidedOk(s: Net, i: nat, num: nat)
    requires Ok(s) && i < |s.links| && num in s.links[i].verdicts
    ensures var l := s.links[i];
            && l.src in s.nodes && num in s.nodes[l.src].arts
            && (l.verdicts[num].PathSkipped? <==> l.dst in s.nodes[l.src].arts[num].path)
  {
    LinkFacts(s, i);
    assert VerdictOk(s, s.links[i], s.nodes[s.links[i].src].arts[num], s.links[i].verdicts[num]);
  }

  /** In every run: link i breaks in state s.  Of the articles that it decides until
      its sender is started anew, but for one that its peer had answered before the
      break, it keeps back exactly those whose Path does not name the peer, and it does
      so for good: reconnecting and restarting later bring none of them back. */
  lemma BrokenLinkLoses(s0: Net, earlier: seq<Step>, s: Net, steps: seq<Step>, t: Net, later: seq<Step>, i: nat, num: nat)
    requires Init(s0) && IsRun(s0, earlier) && s == Final(s0, earlier)
    requires i < |s.links| && (s.links[i].phase.Answered? ==> s.links[i].phase.num != num)
    requires IsRun(s, steps) && Broken(steps, i) && t == Final(s, steps) && IsRun(t, later)
    requires i < |t.links| && num in t.links[i].verdicts && num !in s.links[i].verdicts
    ensures i < |Final(t, later).links|
    ensures var u := Final(t, later);
            var l := u.links[i];
            && l.src in u.nodes && num in u.nodes[l.src].arts && num in l.verdicts
            && (KeptBack(l, num) <==> l.dst !in u.nodes[l.src].arts[num].path)
  {
    RunsStayOk(s0, earlier, s, steps, t);
    BrokenRun(s, steps, i, s.links[i].verdicts, if s.links[i].phase.Answered? then s.links[i].phase.num else num + 1);
    DecidedForGood(t, later, i, num);
  }

  lemma RunsStayOk(s0: Net, earlier: seq<Step>, s: Net, steps: seq<Step>, t: Net)
    requires Init(s0) && IsRun(s0, earlier) && s == Final(s0, earlier) && IsRun(s, steps) && t == Final(s, steps)
    ensures Ok(t)
  {
    RunStaysOk(s0, earlier, s);
    RunStaysOk(s, steps, t);
  }

  lemma DecidedForGood(t: Net, later: seq<Step>, i: nat, num: nat)
    requires Ok(t) && i < |t.links| && IsRun(t, later) && num in t.links[i].verdicts
    ensures i < |Final(t, later).links|
    ensures var u := Final(t, later);
            var l := u.links[i];
            && num in l.verdicts && l.verdicts[num] == t.links[i].verdicts[num]
            && l.src in u.nodes && num in u.nodes[l.src].arts
            && (l.verdicts[num].PathSkipped? <==> l.dst in u.nodes[l.src].arts[num].path)
  {
    RunStaysOk(t, later, Final(t, later));
    VerdictStays(t, later, i, num);
    DecidedOk(Final(t, later), i, num);
  }

  lemma RunStaysOk(s: Net, steps: seq<Step>, t: Net)
    requires (Init(s) || Ok(s)) && IsRun(s, steps) && t == Final(s, steps)
    ensures Ok(t)
  {
    if Init(s) {
      InitOk(s);
    }
    RunOk(s, steps);
  }

  // ---- a run into it --------------------------------------------------------

  /** Two nodes, one link, everything permitted and the post plain: the connection
      breaks, the post fails, and the network comes to rest with every link up and
      the peer without the article. */
  lemma BrokenLinkRun(a: NodeId, b: NodeId, m: MsgId) returns (s0: Net, steps: seq<Step>)
    requires a != b && a != POSTED && b != POSTED
    ensures Init(s0) && IsRun(s0, steps) && Broken(steps, 0) && HonestRun(s0, steps, m) && AtRest(Final(s0, steps))
    ensures Open(Final(s0, steps), m) && (a, m) in Final(s0, steps).origins && HasLink(Final(s0, steps), a, b)
    ensures !Holds(Final(s0, steps), b, m)
  {
    var s1, s2, s4, s5, s6;
    s0, s1, s2 := ConnectedStates(a, b, m);
    PostedPlainly(s2, a, b, m);
    var s3 := PlainPosted(s2, a, b, m);
    s4, s5, s6 := FailedStates(s2, s3, a, b, m);
    steps := Prepend(s5, DropLoose(0), s6, [], m);
    steps := Prepend(s4, Fail(0), s5, steps, m);
    steps := Prepend(s3, Send(0, 1), s4, steps, m);
    steps := Prepend(s2, LocalPost(a, m, []), s3, steps, m);
    steps := Prepend(s1, Connect(0), s2, steps, m);
    steps := Prepend(s0, AddLink(a, b), s1, steps, m);
    RunStaysOk(s0, steps, s6);
    RestMeans(s6);
  }

  /** The same two nodes after a's plain post of m. */
  function PlainPosted(s2: Net, a: NodeId, b: NodeId, m: MsgId): Net {
    s2.(nodes := map[a := Node(map[1 := Copy(m, [a, POSTED])], 1), b := Node(map[], 0)], posted := {m}, origins := {(a, m)})
  }

  lemma PostedPlainly(s2: Net, a: NodeId, b: NodeId, m: MsgId)
    requires a != b && TwoNodes(s2, a, b, m)
    ensures Enabled(s2, LocalPost(a, m, [])) && Next(s2, LocalPost(a, m, [])) == PlainPosted(s2, a, b, m)
  {
    assert [a, POSTED] + [] == [a, POSTED];
    assert s2.nodes[a := Node(map[1 := Copy(m, [a, POSTED])], 1)] == PlainPosted(s2, a, b, m).nodes;
  }

  lemma FailedStates(s2: Net, s3: Net, a: NodeId, b: NodeId, m: MsgId) returns (s4: Net, s5: Net, s6: Net)
    requires a != b && b != POSTED && TwoNodes(s2, a, b, m) && s3 == PlainPosted(s2, a, b, m)
    ensures Enabled(s3, Send(0, 1)) && Next(s3, Send(0, 1)) == s4
    ensures Enabled(s4, Fail(0)) && Next(s4, Fail(0)) == s5
    ensures Enabled(s5, DropLoose(0)) && Next(s5, DropLoose(0)) == s6
    ensures s6.loose == [] && (forall l | l in s6.links :: Drained(s6, l))
    ensures Open(s6, m) && (a, m) in s6.origins && HasLink(s6, a, b) && !Holds(s6, b, m)
  {
    var c := Copy(m, [a, POSTED]);
    assert IsNext(s3.nodes[a].arts, 0, 1) && b !in c.path;
    s4 := Next(s3, Send(0, 1));
    s5 := Next(s4, Fail(0));
    s6 := Next(s5, DropLoose(0));
    assert s6.links == [Advance(s4.links[0], 1, Failed)];
    assert s6.links[0] in s6.links;
  }

  lemma Prepend(s: Net, step: Step, t: Net, rest: seq<Step>, m: MsgId) returns (steps: seq<Step>)
    requires Enabled(s, step) && Next(s, step) == t && IsRun(t, rest) && HonestRun(t, rest, m)
    requires (step.LocalPost? ==> step.path == []) && Broken(rest, 0) && step != Receive(0) && step != Interrupt(0)
    ensures IsRun(s, steps) && HonestRun(s, steps, m) && Broken(steps, 0)
    ensures Final(s, steps) == Final(t, rest)
  {
    steps := [step] + rest;
    assert steps[1..] == rest;
  }
}
