/** The whole system: the cluster of `Cluster` with, on every node that is up, the two loops of
    `Runtime`, and the clients.

    One step is one callback of one loop, a client request, a crash or a start.  A process may die
    at once or stop itself, in which case its store loop answers what is pending.  What a Raft
    callback does afterwards (handing on the next entry, answering reads, starting a capture)
    are steps of their own, so that every order of them is covered.  `past` records what has
    happened, for the statements about client replies.
 */
module System {
  import opened Proto
  import opened RaftNode
  import opened Replay
  import opened Cluster
  import opened Runtime
  import opened Effects

  datatype Answer = Answer(node: nat, request: nat, reply: Reply)

  /** Request ids handed out, write commands by request, requests that entered a log or were
      refused, entries ever created, replies given. */
  datatype Past = Past(
    used: set<(nat, nat)>, issued: map<(nat, nat), Command>, proposed: set<(nat, nat)>,
    refused: set<(nat, nat)>, created: set<Entry>, answers: seq<Answer>)

  datatype Sys = Sys(cluster: State, rts: map<Id, Rt>, past: Past)

  datatype SysStep =
    | RunRaft(id: Id, action: Action)
    | DropAck(id: Id)
    | CancelHead(id: Id)
    | RejectReads(id: Id)
    | DispatchNext(id: Id)
    | CaptureNow(id: Id)
    | StartRestore(id: Id, msg: Message)
    | RunStore(id: Id)
    | Write(id: Id, cmd: Command)
    | Get(id: Id, request: nat, key: string)
    | Expire(id: Id, request: nat)
    | Crash(id: Id, action: Action, written: nat)
    | Boot(id: Id)

  ghost predicate InitSys(s: Sys) {
    && Init(s.cluster)
    && (forall i: Id :: i in s.rts && s.rts[i] == Started(map[], 0))
    && s.past == Past({}, map[], {}, {}, {}, [])
  }

  /** The process is up and has not decided to stop. */
  ghost predicate Running(s: Sys, i: Id) {
    i in s.rts && Enabled(s.cluster, i, DoTick(false)) && !s.rts[i].stopped
  }

  /** The process is stopping: its core is down, its store loop still runs what is queued. */
  ghost predicate Lingering(s: Sys, i: Id) {
    i in s.rts && i in s.cluster.slots && !Up(s.cluster, i) && s.rts[i].stopped
  }

  /** The store loop runs. */
  ghost predicate Alive(s: Sys, i: Id) {
    Running(s, i) || Lingering(s, i)
  }

  /** The Raft loop is free to run its next callback. */
  ghost predicate Free(s: Sys, i: Id) {
    Running(s, i) && s.rts[i].blocked.None?
  }

  /** What the Raft loop's action adds to the record. */
  function Happened(p: Past, i: Id, n: Node, a: Action): Past {
    var q := p.(created := p.created + Creates(n, a));
    if a.DoPropose? && a.data.Some? then
      var key := (i as nat, a.data.value.request);
      if n.role.Leader? then q.(proposed := q.proposed + {key}) else q.(refused := q.refused + {key})
    else q
  }

  function Answered(p: Past, i: Id, answers: seq<(nat, Reply)>): Past {
    if |answers| == 0 then p
    else p.(answers := p.answers + [Answer(i, answers[0].0, answers[0].1)])
  }

  /** A crash may hit any callback that the Raft loop could be running. */
  ghost predicate MayCrashIn(rt: Rt, n: Node, a: Action) {
    Allowed(rt, n, a) || (!a.DoPropose? && !a.DoTakeSnapshot? && !IsInstall(n, a))
  }

  ghost predicate NextSys(s: Sys, st: SysStep, s': Sys) {
    var i := st.id;
    match st
    case RunRaft(_, a) =>
      && Running(s, i) && Allowed(s.rts[i], NodeAt(s.cluster, i), a)
      && Next(s.cluster, Complete(i, a), s'.cluster)
      && s'.rts == s.rts[i := AfterAct(s.rts[i], NodeAt(s.cluster, i), a)]
      && s'.past == Happened(s.past, i, NodeAt(s.cluster, i), a)
    case DropAck(_) =>
      && Free(s, i)
      && var rt, n := s.rts[i], NodeAt(s.cluster, i);
         && rt.raftQ != [] && rt.raftQ[0].Ack? && !InOrder(rt, n, rt.raftQ[0].index)
         && s' == s.(rts := s.rts[i := Unordered(rt, n)])
    case CancelHead(_) =>
      && Free(s, i)
      && var rt := s.rts[i];
         && rt.raftQ != [] && rt.raftQ[0].CancelRead?
         && Next(s.cluster, Project(s, st), s'.cluster)
         && s' == s.(cluster := s'.cluster, rts := s.rts[i := Cancelled(rt)])
    case RejectReads(_) =>
      && Free(s, i) && !NodeAt(s.cluster, i).role.Leader?
      && s' == s.(rts := s.rts[i := DropReads(s.rts[i])])
    case DispatchNext(_) =>
      && Free(s, i) && s' == s.(rts := s.rts[i := Dispatch(s.rts[i], NodeAt(s.cluster, i))])
    case CaptureNow(_) =>
      && Free(s, i) && s' == s.(rts := s.rts[i := Capture(s.rts[i])])
    case StartRestore(_, m) =>
      && Free(s, i) && s.rts[i].inFlight.None?
      && m in s.cluster.net && m.InstallSnapshot? && Installs(NodeAt(s.cluster, i), m, true)
      && s' == s.(rts := s.rts[i := BeginRestore(s.rts[i], m)])
    case RunStore(_) =>
      && Alive(s, i) && s.rts[i].storeQ != []
      && var turn := ServeHead(i, s.rts[i]);
         s' == s.(rts := s.rts[i := turn.rt], past := Answered(s.past, i, turn.answers))
    case Write(_, c) =>
      && Alive(s, i) && c.origin == i && c.WellFormed() && (i as nat, c.request) !in s.past.used
      && s' == s.(rts := s.rts[i := BeginWrite(s.rts[i], c)],
                  past := s.past.(used := s.past.used + {(i as nat, c.request)},
                                  issued := s.past.issued[(i as nat, c.request) := c]))
    case Get(_, request, key) =>
      && Alive(s, i) && (i as nat, request) !in s.past.used
      && s' == s.(rts := s.rts[i := BeginRead(s.rts[i], request, key)],
                  past := s.past.(used := s.past.used + {(i as nat, request)}))
    case Expire(_, request) =>
      && Alive(s, i)
      && var turn := if request in s.rts[i].writes then ExpireWrite(s.rts[i], request)
          else ExpireRead(s.rts[i], request);
         s' == s.(rts := s.rts[i := turn.rt], past := Answered(s.past, i, turn.answers))
    case Crash(_, a, written) =>
      && i in s.rts && Enabled(s.cluster, i, a) && MayCrashIn(s.rts[i], NodeAt(s.cluster, i), a)
      && Next(s.cluster, CrashDuring(i, a, written), s'.cluster)
      && (s'.rts == s.rts - {i} || s'.rts == s.rts[i := Stopping(s.rts[i], a)])
      && s'.past == Happened(s.past, i, NodeAt(s.cluster, i), a)
    case Boot(_) =>
      && Next(s.cluster, Restart(i), s'.cluster)
      && var d := Recover(s.cluster.slots[i].wal);
         && Replayable(d)
         && s' == s.(cluster := s'.cluster, rts := s.rts[i := Started(Recovered(d), d.Commit())])
  }

  // ---------- the cluster's part of a step ----------

  ghost function Project(s: Sys, st: SysStep): Step {
    match st
    case RunRaft(i, a) => Complete(i, a)
    case Crash(i, a, written) => CrashDuring(i, a, written)
    case Boot(i) => Restart(i)
    case CancelHead(i) =>
      if i in s.rts && s.rts[i].raftQ != [] && s.rts[i].raftQ[0].CancelRead? then
        var token := SoleToken(s.rts[i].rounds, s.rts[i].raftQ[0].request);
        if token.Some? then Complete(i, DoFinishReadIndex(token.value)) else Complete(i, DoTick(false))
      else Complete(i, DoTick(false))
    case _ => if Up(s.cluster, st.id) then Complete(st.id, DoTick(false)) else Idle(st.id)
  }

  lemma Stutters(c: State, i: Id)
    requires Enabled(c, i, DoTick(false))
    ensures Next(c, Complete(i, DoTick(false)), c)
  {
    var n := NodeAt(c, i);
    assert Act(n, DoTick(false)) == Effect(n, [], []);
    assert c.slots[i] == Slot(c.slots[i].wal + [], Some(n));
    assert c.slots[i := c.slots[i]] == c.slots;
    assert c.net + (set m | m in Act(n, DoTick(false)).msgs) == c.net;
  }

  /** Every step of the system is a step of the cluster. */
  lemma Projects(s: Sys, st: SysStep, s': Sys)
    requires NextSys(s, st, s')
    ensures Next(s.cluster, Project(s, st), s'.cluster)
  {
    if st.RunRaft? || st.Crash? || st.Boot? || st.CancelHead? {
    } else if Up(s.cluster, st.id) {
      Stutters(s.cluster, st.id);
    }
  }

  // ---------- runs ----------

  ghost predicate StepAt(ss: seq<Sys>, steps: seq<SysStep>, k: int)
    requires |ss| == |steps| + 1 && 0 <= k < |steps|
  {
    NextSys(ss[k], steps[k], ss[k + 1])
  }

  ghost predicate SysRun(ss: seq<Sys>, steps: seq<SysStep>) {
    && |ss| == |steps| + 1
    && InitSys(ss[0])
    && (forall k {:trigger StepAt(ss, steps, k)} :: 0 <= k < |steps| ==> StepAt(ss, steps, k))
  }

  /** A run in which no snapshot is installed over an agreeing suffix. */
  ghost predicate CarefulSysRun(ss: seq<Sys>, steps: seq<SysStep>) {
    && SysRun(ss, steps)
    && (forall k {:trigger StepAt(ss, steps, k)} :: 0 <= k < |steps| ==>
            Careful(ss[k].cluster, Project(ss[k], steps[k])))
  }

  ghost function Clusters(ss: seq<Sys>): (cs: seq<State>)
    ensures |cs| == |ss| && forall k :: 0 <= k < |ss| ==> cs[k] == ss[k].cluster
  {
    seq(|ss|, k requires 0 <= k < |ss| => ss[k].cluster)
  }

  ghost function Projected(ss: seq<Sys>, steps: seq<SysStep>): (ps: seq<Step>)
    requires |ss| >= |steps|
    ensures |ps| == |steps| && forall k :: 0 <= k < |steps| ==> ps[k] == Project(ss[k], steps[k])
  {
    seq(|steps|, k requires 0 <= k < |steps| => Project(ss[k], steps[k]))
  }

  lemma ProjectedRun(ss: seq<Sys>, steps: seq<SysStep>)
    requires SysRun(ss, steps)
    ensures Run(Clusters(ss), Projected(ss, steps))
    ensures CarefulSysRun(ss, steps) ==> CarefulRun(Clusters(ss), Projected(ss, steps))
  {
    var cs, ps := Clusters(ss), Projected(ss, steps);
    forall k | 0 <= k < |steps| ensures Next(cs[k], ps[k], cs[k + 1]) {
      assert StepAt(ss, steps, k);
      Projects(ss[k], steps[k], ss[k + 1]);
    }
    if CarefulSysRun(ss, steps) {
      forall k | 0 <= k < |steps| ensures Careful(cs[k], ps[k]) {
        assert StepAt(ss, steps, k);
      }
    }
  }
}
