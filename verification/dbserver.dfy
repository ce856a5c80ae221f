/** The database server as its concurrent callers see it
    (internal/databases/databases.go): wrappers that put a command and a reply
    channel on a bounded channel, and one goroutine that takes commands off it,
    runs them, and hands each reply over. */
module DbServer {
  import opened Options
  import opened ArticleDb
  import R = ArticleRuns
  import F = ArticleRefs

  const CAPACITY := 10

  datatype Phase = Invoked | Queued | Served(reply: Reply) | Returned(reply: Reply)

  /** The times are history; no step looks at them. */
  datatype Call = Call(cmd: Cmd, phase: Phase, invokedAt: nat, servedAt: nat, returnedAt: nat)

  /** Calls are numbered by their place in `calls`.  `busy` is the call whose reply
      the server is handing over, `channel` every call ever enqueued, `served`
      every call taken off, in order. */
  datatype Server = Server(db: Db, calls: seq<Call>, queue: seq<nat>, busy: Option<nat>,
                           channel: seq<nat>, served: seq<nat>, clock: nat)

  datatype Step = Invoke(cmd: Cmd) | Enqueue(c: nat) | Serve | Return

  ghost predicate Enabled(s: Server, step: Step) {
    match step
    case Invoke(_) => true
    case Enqueue(c) => c < |s.calls| && s.calls[c].phase.Invoked? && |s.queue| < CAPACITY
    case Serve => s.busy.None? && s.queue != [] && s.queue[0] < |s.calls| && Runs(s.db, s.calls[s.queue[0]].cmd)
    case Return => s.busy.Some? && s.busy.value < |s.calls| && s.calls[s.busy.value].phase.Served?
  }

  ghost function Next(s: Server, step: Step): Server
    requires Enabled(s, step)
  {
    var t := s.(clock := s.clock + 1);
    match step
    case Invoke(cmd) =>
      t.(calls := s.calls + [Call(cmd, Invoked, s.clock, 0, 0)])
    case Enqueue(c) =>
      t.(calls := s.calls[c := s.calls[c].(phase := Queued)], queue := s.queue + [c], channel := s.channel + [c])
    case Serve =>
      var c := s.queue[0];
      var (d, r) := Apply(s.db, s.calls[c].cmd);
      t.(db := d, calls := s.calls[c := s.calls[c].(phase := Served(r), servedAt := s.clock)],
         queue := s.queue[1..], busy := Some(c), served := s.served + [c])
    case Return =>
      var c := s.busy.value;
      t.(calls := s.calls[c := s.calls[c].(phase := Returned(s.calls[c].phase.reply), returnedAt := s.clock)],
         busy := None)
  }

  ghost predicate IsRun(s: Server, steps: seq<Step>)
    decreases |steps|
  {
    steps == [] || (Enabled(s, steps[0]) && IsRun(Next(s, steps[0]), steps[1..]))
  }

  ghost function Final(s: Server, steps: seq<Step>): Server
    requires IsRun(s, steps)
    decreases |steps|
  {
    if steps == [] then s else Final(Next(s, steps[0]), steps[1..])
  }

  function Start(db: Db): Server {
    Server(db, [], [], None, [], [], 0)
  }

  // ---- the sequential run ---------------------------------------------------

  /** The commands of some calls as a run of the database. */
  function Ops(calls: seq<Call>, ids: seq<nat>): seq<R.Op>
    requires forall i | 0 <= i < |ids| :: ids[i] < |calls|
  {
    seq(|ids|, i requires 0 <= i < |ids| => R.Do(calls[ids[i]].cmd))
  }

  lemma {:induction false} RunAppend(db: Db, ops: seq<R.Op>, op: R.Op)
    requires R.IsRun(db, ops) && R.Allowed(R.Final(db, ops), op)
    ensures R.IsRun(db, ops + [op]) && R.Final(db, ops + [op]) == R.Perform(R.Final(db, ops), op)
    decreases |ops|
  {
    if ops == [] {
      assert ops + [op] == [op];
    } else {
      RunAppend(R.Perform(db, ops[0]), ops[1..], op);
      assert (ops + [op])[1..] == ops[1..] + [op];
    }
  }

  predicate Answered(c: Call) {
    c.phase.Served? || c.phase.Returned?
  }

  // ---- the invariant --------------------------------------------------------

  /** ids are known calls, each at most once. */
  ghost predicate Ids(s: Server, ids: seq<nat>) {
    && (forall i | 0 <= i < |ids| :: ids[i] < |s.calls|)
    && (forall i, j | 0 <= i < j < |ids| :: ids[i] != ids[j])
  }

  /** The channel's history is what was served and then what still waits, and a
      call's phase says where it is. */
  ghost predicate ChannelOk(s: Server) {
    && s.channel == s.served + s.queue && Ids(s, s.channel)
    && |s.queue| <= CAPACITY
    && (forall c: nat | c < |s.calls| :: Answered(s.calls[c]) <==> c in s.served)
    && (forall c: nat | c < |s.calls| :: s.calls[c].phase.Queued? <==> c in s.queue)
    && (forall c: nat | c < |s.calls| :: s.calls[c].phase.Served? <==> s.busy == Some(c))
    && (s.busy.Some? ==> s.busy.value < |s.calls|)
  }

  /** Calls are served one after the other, each within its own duration. */
  ghost predicate TimesOk(s: Server) {
    && (forall c: nat | c < |s.calls| :: s.calls[c].invokedAt < s.clock)
    && (forall c: nat | c < |s.calls| && Answered(s.calls[c]) ::
          s.calls[c].invokedAt < s.calls[c].servedAt < s.clock)
    && (forall c: nat | c < |s.calls| && s.calls[c].phase.Returned? ::
          s.calls[c].servedAt < s.calls[c].returnedAt < s.clock)
    && (forall i, j | 0 <= i < j < |s.served| && s.served[i] < |s.calls| && s.served[j] < |s.calls| ::
          s.calls[s.served[i]].servedAt < s.calls[s.served[j]].servedAt)
  }

  /** The i-th served call has the reply its command gets after the i before it. */
  ghost predicate ReplyIs(db0: Db, s: Server, ops: seq<R.Op>, i: nat) {
    && i < |s.served| && s.served[i] < |s.calls| && i <= |ops|
    && var c := s.calls[s.served[i]];
       && Answered(c) && R.IsRun(db0, ops[..i]) && Runs(R.Final(db0, ops[..i]), c.cmd)
       && c.phase.reply == Apply(R.Final(db0, ops[..i]), c.cmd).1
  }

  /** The state and every reply are those of the sequential run in channel order. */
  ghost predicate ReplayOk(db0: Db, s: Server) {
    && (forall i | 0 <= i < |s.served| :: s.served[i] < |s.calls| && Answered(s.calls[s.served[i]]))
    && var ops := Ops(s.calls, s.served);
       && R.IsRun(db0, ops) && R.Final(db0, ops) == s.db
       && forall i | 0 <= i < |s.served| :: ReplyIs(db0, s, ops, i)
  }

  ghost predicate Ok(db0: Db, s: Server) {
    ChannelOk(s) && TimesOk(s) && ReplayOk(db0, s)
  }

  lemma SameCommands(a: seq<Call>, b: seq<Call>, ids: seq<nat>)
    requires |a| <= |b| && forall i | 0 <= i < |ids| :: ids[i] < |a|
    requires forall c: nat | c < |a| :: b[c].cmd == a[c].cmd
    ensures Ops(a, ids) == Ops(b, ids)
  {
  }

  /** Steps that neither serve nor change a reply. */
  lemma ReplayKept(db0: Db, s: Server, t: Server)
    requires ReplayOk(db0, s) && t.db == s.db && t.served == s.served && |s.calls| <= |t.calls|
    requires forall c: nat | c < |s.calls| :: t.calls[c].cmd == s.calls[c].cmd
    requires forall c: nat | c < |s.calls| && Answered(s.calls[c]) ::
               Answered(t.calls[c]) && t.calls[c].phase.reply == s.calls[c].phase.reply
    ensures ReplayOk(db0, t)
  {
    SameCommands(s.calls, t.calls, s.served);
    forall i | 0 <= i < |t.served| ensures ReplyIs(db0, t, Ops(t.calls, t.served), i) {
      assert ReplyIs(db0, s, Ops(s.calls, s.served), i);
    }
  }

  lemma ServeReplay(db0: Db, s: Server)
    requires ReplayOk(db0, s) && ChannelOk(s) && Enabled(s, Serve)
    ensures ReplayOk(db0, Next(s, Serve))
  {
    var t := Next(s, Serve);
    var c := s.queue[0];
    var ops, op := Ops(s.calls, s.served), R.Do(s.calls[c].cmd);
    assert s.calls[c].phase.Queued?;
    RunAppend(db0, ops, op);
    assert Ops(t.calls, t.served) == ops + [op];
    forall i | 0 <= i < |t.served| ensures ReplyIs(db0, t, ops + [op], i) {
      assert (ops + [op])[..i] == ops[..i];
      if i == |s.served| {
        assert ops[..i] == ops;
      } else {
        assert t.served[i] == s.served[i] != c && ReplyIs(db0, s, ops, i);
      }
    }
  }

  lemma ServeChannel(s: Server)
    requires ChannelOk(s) && Enabled(s, Serve)
    ensures ChannelOk(Next(s, Serve))
  {
    var t, c := Next(s, Serve), s.queue[0];
    assert s.served + s.queue == (s.served + [c]) + s.queue[1..];
    assert s.channel[|s.served|] == c;
    forall k: nat | k < |t.calls| ensures t.calls[k].phase.Queued? <==> k in t.queue {
      if k in s.queue[1..] {
        var j :| 0 <= j < |s.queue[1..]| && s.queue[1..][j] == k;
        assert s.channel[|s.served| + 1 + j] == k;
      }
      assert k in s.queue <==> k == c || k in s.queue[1..];
    }
  }

  lemma EnqueueChannel(s: Server, c: nat)
    requires ChannelOk(s) && Enabled(s, Enqueue(c))
    ensures ChannelOk(Next(s, Enqueue(c)))
  {
    var t := Next(s, Enqueue(c));
    assert s.served + (s.queue + [c]) == (s.served + s.queue) + [c];
    assert c !in s.served && c !in s.queue;
    assert forall i | 0 <= i < |s.channel| :: s.channel[i] in s.served || s.channel[i] in s.queue;
  }

  lemma InvokeChannel(s: Server, cmd: Cmd)
    requires ChannelOk(s)
    ensures ChannelOk(Next(s, Invoke(cmd)))
  {
    var t, n := Next(s, Invoke(cmd)), |s.calls|;
    assert forall i | 0 <= i < |s.channel| :: s.channel[i] != n;
    assert n !in s.served by {
      assert forall i | 0 <= i < |s.served| :: s.channel[i] == s.served[i];
    }
    assert n !in s.queue by {
      assert forall i | 0 <= i < |s.queue| :: s.channel[|s.served| + i] == s.queue[i];
    }
  }

  lemma ReturnChannel(s: Server)
    requires ChannelOk(s) && Enabled(s, Return)
    ensures ChannelOk(Next(s, Return))
  {
  }

  lemma ServedAreAnswered(s: Server)
    requires ChannelOk(s)
    ensures forall i | 0 <= i < |s.served| :: s.served[i] < |s.calls| && Answered(s.calls[s.served[i]])
    ensures Ids(s, s.served)
  {
    forall i | 0 <= i < |s.served| ensures s.served[i] == s.channel[i] && s.served[i] in s.served {
    }
  }

  lemma ServeTimes(s: Server)
    requires ChannelOk(s) && TimesOk(s) && Enabled(s, Serve)
    ensures TimesOk(Next(s, Serve))
  {
    var t, c := Next(s, Serve), s.queue[0];
    ServedAreAnswered(s);
    assert s.calls[c].phase.Queued?;
    forall i, j | 0 <= i < j < |t.served| ensures t.calls[t.served[i]].servedAt < t.calls[t.served[j]].servedAt {
      assert t.served[i] == s.served[i] != c;
      if j < |s.served| {
        assert t.served[j] == s.served[j] != c;
      }
    }
  }

  /** Only the clock and the phases of unserved calls move, or a reply is handed over. */
  lemma OtherTimes(s: Server, step: Step)
    requires ChannelOk(s) && TimesOk(s) && Enabled(s, step) && !step.Serve?
    ensures TimesOk(Next(s, step))
  {
    var t := Next(s, step);
    ServedAreAnswered(s);
    forall i, j | 0 <= i < j < |t.served| ensures t.calls[t.served[i]].servedAt < t.calls[t.served[j]].servedAt {
      assert s.calls[s.served[i]].servedAt < s.calls[s.served[j]].servedAt;
    }
  }

  lemma StepOk(db0: Db, s: Server, step: Step)
    requires Ok(db0, s) && Enabled(s, step)
    ensures Ok(db0, Next(s, step))
  {
    if step.Serve? {
      ServeTimes(s);
    } else {
      OtherTimes(s, step);
    }
    match step {
      case Invoke(cmd) =>
        InvokeChannel(s, cmd);
        ReplayKept(db0, s, Next(s, step));
      case Enqueue(c) =>
        EnqueueChannel(s, c);
        ReplayKept(db0, s, Next(s, step));
      case Serve =>
        ServeChannel(s);
        ServeReplay(db0, s);
      case Return =>
        ReturnChannel(s);
        ReplayKept(db0, s, Next(s, step));
    }
  }

  lemma {:induction false} RunOk(db0: Db, s: Server, steps: seq<Step>)
    requires Ok(db0, s) && IsRun(s, steps)
    ensures Ok(db0, Final(s, steps))
    decreases |steps|
  {
    if steps != [] {
      StepOk(db0, s, steps[0]);
      RunOk(db0, Next(s, steps[0]), steps[1..]);
    }
  }

  lemma StartOk(db0: Db)
    ensures Ok(db0, Start(db0))
  {
    var s := Start(db0);
    assert ChannelOk(s) && TimesOk(s);
    assert ReplayOk(db0, s) by {
      assert Ops(s.calls, s.served) == [];
    }
  }

  // ---- linearizability ------------------------------------------------------

  /** Call a comes before call b in the order of service. */
  ghost predicate Before(s: Server, a: nat, b: nat) {
    exists i, j :: 0 <= i < j < |s.served| && s.served[i] == a && s.served[j] == b
  }

  /** A call that returned before another was made comes before it. */
  ghost predicate RealTime(s: Server) {
    forall a: nat, b: nat | a < |s.calls| && b < |s.calls| && s.calls[a].phase.Returned?
      && s.calls[a].returnedAt <= s.calls[b].invokedAt && Answered(s.calls[b]) :: Before(s, a, b)
  }

  /** Exactly the answered calls were served, each once, in channel order. */
  ghost predicate OneReplyEach(s: Server) {
    && s.served <= s.channel && Ids(s, s.served)
    && (forall c: nat | c < |s.calls| :: Answered(s.calls[c]) <==> c in s.served)
  }

  /** Every concurrent history of calls is the sequential run of the database in
      channel order: the state is that run's state, each served call has exactly
      the reply that run gives its own command, once, and the order respects the
      order of calls that do not overlap. */
  lemma Linearizable(db0: Db, steps: seq<Step>)
    requires IsRun(Start(db0), steps)
    ensures ReplayOk(db0, Final(Start(db0), steps))
    ensures OneReplyEach(Final(Start(db0), steps)) && RealTime(Final(Start(db0), steps))
  {
    StartOk(db0);
    RunOk(db0, Start(db0), steps);
    RealTimeKept(Final(Start(db0), steps));
  }

  lemma RealTimeKept(s: Server)
    requires ChannelOk(s) && TimesOk(s)
    ensures OneReplyEach(s) && RealTime(s)
  {
    ServedAreAnswered(s);
    forall a: nat, b: nat | a < |s.calls| && b < |s.calls| && s.calls[a].phase.Returned?
      && s.calls[a].returnedAt <= s.calls[b].invokedAt && Answered(s.calls[b]) ensures Before(s, a, b)
    {
      RealTimeOrder(s, a, b);
    }
  }

  lemma RealTimeOrder(s: Server, a: nat, b: nat)
    requires ChannelOk(s) && TimesOk(s) && a < |s.calls| && b < |s.calls|
    requires s.calls[a].phase.Returned? && Answered(s.calls[b]) && s.calls[a].returnedAt <= s.calls[b].invokedAt
    ensures Before(s, a, b)
  {
    ServedAreAnswered(s);
    assert a in s.served && b in s.served;
    var i :| 0 <= i < |s.served| && s.served[i] == a;
    var j :| 0 <= j < |s.served| && s.served[j] == b;
    assert s.calls[a].servedAt < s.calls[b].servedAt;
    assert i < j;
  }

  /** So whatever holds over every run of the database holds under concurrency:
      with proper commands the reference counts are exact in every state. */
  lemma ConcurrentReferenceCounting(me: TorId, steps: seq<Step>)
    requires IsRun(Start(Blank(me)), steps)
    requires var s := Final(Start(Blank(me)), steps);
             ReplayOk(Blank(me), s) && R.ProperRun(Blank(me), Ops(s.calls, s.served))
    ensures var d := Final(Start(Blank(me)), steps).db;
            && (forall m | m in d.rows :: d.rows[m].refs == |F.Holders(d, m)|)
            && (forall g, m | g in d.groups && m in d.groups[g].index ::
                  m in d.rows && d.groups[g].index[m] == d.rows[m].id)
  {
    var s := Final(Start(Blank(me)), steps);
    var ops := Ops(s.calls, s.served);
    R.ReferenceCounting(me, ops);
    assert s.db == R.Final(Blank(me), ops);
  }

  /** A call that has not returned can always go on, or waits for one that can,
      as long as the command at the head of the channel does not panic. */
  lemma NeverStuck(db0: Db, steps: seq<Step>, c: nat)
    requires IsRun(Start(db0), steps)
    requires var s := Final(Start(db0), steps);
             && c < |s.calls| && !s.calls[c].phase.Returned?
             && (s.queue != [] ==> s.queue[0] < |s.calls| && Runs(s.db, s.calls[s.queue[0]].cmd))
    ensures var s := Final(Start(db0), steps);
            Enabled(s, Return) || Enabled(s, Serve) || Enabled(s, Enqueue(c))
  {
    StartOk(db0);
    RunOk(db0, Start(db0), steps);
    Unstuck(Final(Start(db0), steps), c);
  }

  lemma Unstuck(s: Server, c: nat)
    requires ChannelOk(s) && c < |s.calls| && !s.calls[c].phase.Returned?
    requires s.queue != [] ==> s.queue[0] < |s.calls| && Runs(s.db, s.calls[s.queue[0]].cmd)
    ensures Enabled(s, Return) || Enabled(s, Serve) || Enabled(s, Enqueue(c))
  {
  }

  lemma {:induction false} RunBound(s: Server, steps: seq<Step>)
    requires IsRun(s, steps) && |s.queue| <= 10
    ensures |Final(s, steps).queue| <= 10
    decreases |steps|
  {
    if steps != [] {
      RunBound(Next(s, steps[0]), steps[1..]);
    }
  }

  /** The channel holds up to ten commands: at most ten in every history, and a caller
      can put its command there as long as there are fewer. */
  lemma ChannelOfTen(db0: Db, steps: seq<Step>, c: nat)
    requires IsRun(Start(db0), steps)
    ensures var s := Final(Start(db0), steps);
            && |s.queue| <= 10
            && (c < |s.calls| && s.calls[c].phase.Invoked? ==> (Enabled(s, Enqueue(c)) <==> |s.queue| != 10))
  {
    RunBound(Start(db0), steps);
  }
}
