/** The flooding protocol of the relay as a state machine over many nodes.

    A node keeps its articles by number and one cursor (`LastMessage`) per
    outgoing link.  The sending half is `Peer.SendMessages`
    (internal/peering/peering.go), the receiving half `NntpBackend.Post`
    (internal/nntpbackend/nntpbackend.go).  What a link decided about an article
    is kept in `verdicts`, and how often it tried in `attempts` and
    `interrupted`: history that no step consults. */
module Flood {

  type NodeId = string
  type MsgId = string

  /** The pseudo host a node puts behind itself on a locally posted article. */
  const POSTED: NodeId := ".POSTED"

  datatype Copy = Copy(mid: MsgId, path: seq<NodeId>)

  /** `last` is the AUTOINCREMENT high-water mark of the main article table. */
  datatype Node = Node(arts: map<nat, Copy>, last: nat)

  datatype Verdict = PathSkipped | PermSkipped | Stored | Duplicate | Refused | Failed

  /** Sent: the post is on the wire.  Answered: the peer has dealt with it, and
      the cursor has not been written yet. */
  datatype Phase =
    | Idle
    | Sent(num: nat, copy: Copy)
    | Answered(num: nat, copy: Copy, verdict: Verdict)

  datatype Link = Link(src: NodeId, dst: NodeId, up: bool, cursor: nat, phase: Phase,
                       verdicts: map<nat, Verdict>, attempts: map<nat, nat>, interrupted: map<nat, nat>)

  /** A post whose sender no longer waits for the answer. */
  datatype Loose = Loose(src: NodeId, dst: NodeId, num: nat, copy: Copy)

  /** mayRead holds (sender, peer, article) when the sender's tables let the peer
      read one of the article's groups; mayPost holds (receiver, session, article)
      when the receiver verifies it and files it in at least one group. */
  datatype Net = Net(nodes: map<NodeId, Node>, links: seq<Link>, loose: seq<Loose>,
                     posted: set<MsgId>, origins: set<(NodeId, MsgId)>,
                     mayRead: set<(NodeId, NodeId, MsgId)>, mayPost: set<(NodeId, NodeId, MsgId)>)

  datatype Step =
    | LocalPost(n: NodeId, mid: MsgId, path: seq<NodeId>)
    | AddLink(a: NodeId, b: NodeId)
    | Reconfigure(mayRead: set<(NodeId, NodeId, MsgId)>, mayPost: set<(NodeId, NodeId, MsgId)>)
    | Interrupt(i: nat)
    | Restart(n: NodeId, now: nat)
    | Connect(i: nat)
    | Send(i: nat, num: nat)
    | Receive(i: nat)
    | Finish(i: nat)
    | Fail(i: nat)
    | ReceiveLoose(j: nat)
    | DropLoose(j: nat)
  {
    /** Steps the network takes by itself; the others come from users,
        crashes and configuration. */
    predicate Quiet() {
      Connect? || Send? || Receive? || Finish? || Fail? || ReceiveLoose? || DropLoose?
    }
  }

  function Count(m: map<nat, nat>, num: nat): nat {
    if num in m then m[num] else 0
  }

  function Bump(m: map<nat, nat>, num: nat): map<nat, nat> {
    m[num := Count(m, num) + 1]
  }

  ghost predicate HoldsIn(arts: map<nat, Copy>, m: MsgId) {
    exists num :: num in arts && arts[num].mid == m
  }

  ghost predicate Holds(s: Net, n: NodeId, m: MsgId) {
    n in s.nodes && HoldsIn(s.nodes[n].arts, m)
  }

  /** The row `SELECT id FROM articles WHERE id > c ORDER BY id LIMIT 1` yields. */
  ghost predicate IsNext(arts: map<nat, Copy>, c: nat, num: nat) {
    num in arts && c < num && forall k | k in arts && c < k :: num <= k
  }

  ghost predicate HasLink(s: Net, a: NodeId, b: NodeId) {
    exists l :: l in s.links && l.src == a && l.dst == b
  }

  // ---- receiving ------------------------------------------------------------

  ghost function Judge(s: Net, src: NodeId, dst: NodeId, c: Copy): Verdict
    requires dst in s.nodes
  {
    if (dst, src, c.mid) !in s.mayPost || c.path == [] then Refused
    else if HoldsIn(s.nodes[dst].arts, c.mid) then Duplicate
    else Stored
  }

  function File(n: Node, c: Copy): Node {
    Node(n.arts[n.last + 1 := c], n.last + 1)
  }

  ghost function Deliver(s: Net, src: NodeId, dst: NodeId, c: Copy): Net
    requires dst in s.nodes
  {
    if Judge(s, src, dst, c) == Stored
    then s.(nodes := s.nodes[dst := File(s.nodes[dst], Copy(c.mid, [dst] + c.path))])
    else s
  }

  // ---- one link -------------------------------------------------------------

  function Advance(l: Link, num: nat, v: Verdict): Link {
    l.(cursor := num, phase := Idle, verdicts := l.verdicts[num := v])
  }

  /** What SendMessages does with the first article above the cursor. */
  function Offer(l: Link, num: nat, c: Copy, readable: bool): Link {
    if l.dst in c.path then Advance(l, num, PathSkipped)
    else if !readable then Advance(l, num, PermSkipped)
    else l.(phase := Sent(num, c), attempts := Bump(l.attempts, num))
  }

  /** The sender stops waiting, its cursor unwritten. */
  function Cut(l: Link): Link {
    var l' := l.(up := false, phase := Idle);
    if l.phase.Idle? then l' else l'.(interrupted := Bump(l.interrupted, l.phase.num))
  }

  // ---- the machine ----------------------------------------------------------

  ghost predicate Enabled(s: Net, step: Step) {
    match step
    case LocalPost(n, mid, _) => n in s.nodes && !HoldsIn(s.nodes[n].arts, mid)
    case AddLink(a, b) => a in s.nodes && b in s.nodes && a != b && !HasLink(s, a, b)
    case Reconfigure(_, _) => true
    case Interrupt(i) => i < |s.links| && s.links[i].up
    case Restart(n, now) => n in s.nodes && now !in s.nodes[n].arts
                            && forall l | l in s.links && l.src == n :: !l.up
    case Connect(i) => i < |s.links| && !s.links[i].up
    case Send(i, num) => i < |s.links| && s.links[i].up && s.links[i].phase.Idle?
                         && s.links[i].src in s.nodes
                         && IsNext(s.nodes[s.links[i].src].arts, s.links[i].cursor, num)
    case Receive(i) => i < |s.links| && s.links[i].phase.Sent? && s.links[i].dst in s.nodes
    case Finish(i) => i < |s.links| && s.links[i].phase.Answered?
    case Fail(i) => i < |s.links| && s.links[i].phase.Sent?
    case ReceiveLoose(j) => j < |s.loose| && s.loose[j].dst in s.nodes
    case DropLoose(j) => j < |s.loose|
  }

  ghost function Next(s: Net, step: Step): Net
    requires Enabled(s, step)
  {
    match step
    case LocalPost(n, mid, path) =>
      s.(nodes := s.nodes[n := File(s.nodes[n], Copy(mid, [n, POSTED] + path))],
         posted := s.posted + {mid}, origins := s.origins + {(n, mid)})
    case AddLink(a, b) =>
      s.(links := s.links + [Link(a, b, false, 0, Idle, map[], map[], map[])])
    case Reconfigure(r, p) =>
      s.(mayRead := r, mayPost := p)
    case Interrupt(i) =>
      var l := s.links[i];
      s.(links := s.links[i := Cut(l)],
         loose := if l.phase.Sent? then s.loose + [Loose(l.src, l.dst, l.phase.num, l.phase.copy)] else s.loose)
    case Restart(n, now) =>
      var node := s.nodes[n];
      s.(nodes := s.nodes[n := node.(last := if now > node.last then now else node.last)])
    case Connect(i) =>
      s.(links := s.links[i := s.links[i].(up := true)])
    case Send(i, num) =>
      var l := s.links[i];
      var c := s.nodes[l.src].arts[num];
      s.(links := s.links[i := Offer(l, num, c, (l.src, l.dst, c.mid) in s.mayRead)])
    case Receive(i) =>
      var l := s.links[i];
      var v := Judge(s, l.src, l.dst, l.phase.copy);
      Deliver(s, l.src, l.dst, l.phase.copy)
        .(links := s.links[i := l.(phase := Answered(l.phase.num, l.phase.copy, v))])
    case Finish(i) =>
      var l := s.links[i];
      s.(links := s.links[i := Advance(l, l.phase.num, l.phase.verdict)])
    case Fail(i) =>
      var l := s.links[i];
      s.(links := s.links[i := Advance(l, l.phase.num, Failed)],
         loose := s.loose + [Loose(l.src, l.dst, l.phase.num, l.phase.copy)])
    case ReceiveLoose(j) =>
      var c := s.loose[j];
      Deliver(s, c.src, c.dst, c.copy).(loose := s.loose[..j] + s.loose[j + 1..])
    case DropLoose(j) =>
      s.(loose := s.loose[..j] + s.loose[j + 1..])
  }

  ghost predicate Init(s: Net) {
    && POSTED !in s.nodes
    && (forall n | n in s.nodes :: s.nodes[n].arts == map[])
    && s.links == [] && s.loose == [] && s.posted == {} && s.origins == {}
  }

  ghost predicate IsRun(s: Net, steps: seq<Step>)
    decreases |steps|
  {
    steps == [] || (Enabled(s, steps[0]) && IsRun(Next(s, steps[0]), steps[1..]))
  }

  ghost function Final(s: Net, steps: seq<Step>): Net
    requires IsRun(s, steps)
    decreases |steps|
  {
    if steps == [] then s else Final(Next(s, steps[0]), steps[1..])
  }

  /** No quiet step can be taken. */
  ghost predicate AtRest(s: Net) {
    forall step: Step | step.Quiet() :: !Enabled(s, step)
  }
}
