/** Safety of the whole cluster, over every run with loss, duplication, delay, reordering,
    crashes at any record boundary, restarts and compaction in which no snapshot is installed
    over an agreeing suffix (`CarefulRun`).  `Counterexample` shows a run that violates it
    otherwise. */
module Safety {
  import opened Proto
  import opened Consensus
  import opened ConsensusSteps
  import opened RaftNode
  import opened Replay
  import opened Cluster
  import opened Durability
  import opened Invariant
  import opened Elections
  import opened Replication

  // ---------- every step keeps the invariant ----------

  ghost predicate ActionOk(h: History, n: Node, a: Action) {
    && (a.DoReceive? ==> MsgOk(h, a.msg))
    && (a.DoReceive? && a.msg.InstallSnapshot? ==> !(Installs(n, a.msg, a.restored) && DropsSuffix(n, a.msg)))
    && (a.DoPropose? && a.data.Some? ==> a.data.value.WellFormed())
  }

  lemma ReceiveCompletes(w: World, i: Id, n: Node, d: Disk, m: Message, heard: bool,
                         restored: bool) returns (g: History)
    requires Local(w, i, n, d) && ActionOk(w.h, n, DoReceive(m, heard, restored))
    ensures Completes(w, i, g, d, Receive(n, m, heard, restored))
  {
    g := w.h;
    match m
    case RequestVote(_, _, _, _, _) => g := RequestVoteCompletes(w, i, n, d, m);
    case RequestVoteResponse(_, _, _, _) => g := RequestVoteResponseCompletes(w, i, n, d, m);
    case PreVote(_, _, _, _, _) => ReachesSame(w, i, d, d);
    case PreVoteResponse(_, _, _, _, _) => g := PreVoteResponseCompletes(w, i, n, d, m);
    case AppendEntries(_, _, _, _, _, _, _, _) => g := AppendCompletes(w, i, n, d, m);
    case AppendEntriesResponse(_, _, _, _, _, _) => g := ResponseCompletes(w, i, n, d, m);
    case InstallSnapshot(_, _, _, _, _, _) => g := InstallCompletes(w, i, n, d, m, restored);
    case InstallSnapshotResponse(_, _, _, _, _) => InstallResponseCompletes(w, i, n, d, m);
  }

  lemma ActCompletes(w: World, i: Id, n: Node, d: Disk, a: Action) returns (g: History)
    requires Local(w, i, n, d) && ActionOk(w.h, n, a)
    ensures Completes(w, i, g, d, Act(n, a))
  {
    g := w.h;
    match a
    case DoTick(fires) => TickCompletes(w, i, n, d, fires);
    case DoReceive(m, heard, restored) => g := ReceiveCompletes(w, i, n, d, m, heard, restored);
    case DoPropose(data) => g := ProposeCompletes(w, i, n, d, data);
    case DoAdvance(index) => AdvanceCompletes(w, i, n, d, Advance(n, index));
    case DoTakeSnapshot(upTo, state) => TakeSnapshotCompletes(w, i, n, d, upTo, state);
    case DoReadIndex => g := ReadIndexCompletes(w, i, n, d);
    case DoFinishReadIndex(read) => AdvanceCompletes(w, i, n, d, FinishReadIndex(n, read));
  }

  /** A crash after any number of the entry point's records leaves a consistent disk. */
  lemma ActCrash(w: World, i: Id, n: Node, d: Disk, a: Action, j: nat) returns (g: History)
    requires Local(w, i, n, d) && ActionOk(w.h, n, a)
    requires j <= |Act(n, a).records|
    ensures Reaches(w, i, g, ApplyAll(d, Act(n, a).records[..j]))
  {
    var rs := Act(n, a).records;
    if j == 0 {
      g := w.h;
      ReachesSame(w, i, d, d);
    } else if j == |rs| {
      g := ActCompletes(w, i, n, d, a);
      assert rs[..j] == rs;
    } else {
      ManyRecords(n, a);
      if a.msg.RequestVote? {
        g := RequestVoteCrash(w, i, n, d, a.msg, j);
      } else if a.msg.AppendEntries? {
        g := AppendCrash(w, i, n, d, a.msg, j);
      } else {
        g := InstallCrash(w, i, n, d, a.msg, a.restored, j);
      }
    }
  }

  // ---------- assembling the cluster ----------

  lemma WorldLocal(c: State, h: History, i: Id)
    requires ClusterInv(c, h)
    ensures Durable(WorldOf(c, h), i, DiskAt(c, i))
    ensures Up(c, i) ==> Local(WorldOf(c, h), i, NodeAt(c, i), DiskAt(c, i))
  {
    assert SlotOk(h, c.slots[i], i);
  }

  lemma Assemble(c: State, h: History, i: Id, c': State, g: History)
    requires ClusterInv(c, h)
    requires i in c'.slots && c'.slots == c.slots[i := c'.slots[i]]
    requires Reaches(WorldOf(c, h), i, g, DiskAt(c', i))
    requires SlotOk(g, c'.slots[i], i)
    requires forall m :: m in c'.net ==> m in c.net || MsgOk(g, m)
    ensures ClusterInv(c', g)
  {
    forall k: Id ensures SlotOk(g, c'.slots[k], k) {
      assert SlotOk(h, c.slots[k], k);
      if k != i {
        FullGrows(h, g, DiskAt(c, k));
        if Up(c, k) { MemOkGrows(h, g, NodeAt(c, k), DiskAt(c, k), k, i); }
      }
    }
    forall m | m in c'.net ensures MsgOk(g, m) {
      if m in c.net {
        assert MsgOk(h, m);
        MsgOkGrows(h, g, m);
      }
    }
    SameWorld(c, h, i, c', g);
  }

  lemma SameWorld(c: State, h: History, i: Id, c': State, g: History)
    requires ClusterInv(c, h) && GrowsBy(h, g, i)
    requires i in c'.slots && c'.slots == c.slots[i := c'.slots[i]]
    ensures forall k: Id :: k in c'.slots
    ensures WorldOf(c', g) == Moved(WorldOf(c, h), i, g, DiskAt(c', i))
  {
    var a, b := WorldOf(c', g).nodes, Moved(WorldOf(c, h), i, g, DiskAt(c', i)).nodes;
    forall k: Id ensures k in a && k in b && a[k] == b[k] { SameNode(c, h, i, c', g, k); }
    assert a.Keys == b.Keys;
    assert a == b;
  }

  lemma SameNode(c: State, h: History, i: Id, c': State, g: History, k: Id)
    requires ClusterInv(c, h) && GrowsBy(h, g, i)
    requires i in c'.slots && c'.slots == c.slots[i := c'.slots[i]]
    ensures k in c'.slots && WorldOf(c', g).nodes[k] == Moved(WorldOf(c, h), i, g, DiskAt(c', i)).nodes[k]
  {
    assert SlotOk(h, c.slots[k], k);
    if k != i { FullGrows(h, g, DiskAt(c, k)); }
  }

  lemma ActionIsOk(c: State, h: History, s: Step)
    requires ClusterInv(c, h) && (s.Complete? || s.CrashDuring?)
    requires Enabled(c, s.id, s.action) && Careful(c, s)
    ensures ActionOk(h, NodeAt(c, s.id), s.action)
  {
    assert s.action.DoReceive? ==> MsgOk(h, s.action.msg);
  }

  lemma CompleteReaches(c: State, h: History, i: Id, a: Action, c': State) returns (g: History)
    requires ClusterInv(c, h) && Next(c, Complete(i, a), c') && Careful(c, Complete(i, a))
    ensures Reaches(WorldOf(c, h), i, g, DiskAt(c', i)) && SlotOk(g, c'.slots[i], i)
    ensures forall m :: m in c'.net ==> m in c.net || MsgOk(g, m)
  {
    WorldLocal(c, h, i);
    ActionIsOk(c, h, Complete(i, a));
    var n := NodeAt(c, i);
    g := ActCompletes(WorldOf(c, h), i, n, DiskAt(c, i), a);
    var e := Act(n, a);
    ApplyAllConcat(EMPTY_DISK, c.slots[i].wal, e.records);
    forall m | m in c'.net ensures m in c.net || MsgOk(g, m) {
      if m !in c.net { SentIsOk(g, e.msgs, m); }
    }
  }

  lemma SentIsOk(g: History, ms: seq<Message>, m: Message)
    requires MsgsOk(g, ms) && m in ms
    ensures MsgOk(g, m)
  {
    var k :| 0 <= k < |ms| && ms[k] == m;
    assert MsgOk(g, ms[k]);
  }

  lemma CrashReaches(c: State, h: History, i: Id, a: Action, j: nat, c': State) returns (g: History)
    requires ClusterInv(c, h) && Next(c, CrashDuring(i, a, j), c') && Careful(c, CrashDuring(i, a, j))
    ensures Reaches(WorldOf(c, h), i, g, DiskAt(c', i)) && SlotOk(g, c'.slots[i], i)
  {
    WorldLocal(c, h, i);
    ActionIsOk(c, h, CrashDuring(i, a, j));
    g := ActCrash(WorldOf(c, h), i, NodeAt(c, i), DiskAt(c, i), a, j);
    ApplyAllConcat(EMPTY_DISK, c.slots[i].wal, Act(NodeAt(c, i), a).records[..j]);
  }

  lemma RestartReaches(c: State, h: History, i: Id, c': State)
    requires ClusterInv(c, h) && Next(c, Restart(i), c')
    ensures Reaches(WorldOf(c, h), i, h, DiskAt(c', i)) && SlotOk(h, c'.slots[i], i)
  {
    WorldLocal(c, h, i);
    ReachesSame(WorldOf(c, h), i, DiskAt(c, i), DiskAt(c, i));
    RestoreMirrors(i, DiskAt(c, i));
  }

  lemma IdleReaches(c: State, h: History, i: Id)
    requires ClusterInv(c, h)
    ensures Reaches(WorldOf(c, h), i, h, DiskAt(c, i)) && SlotOk(h, c.slots[i], i)
  {
    WorldLocal(c, h, i);
    ReachesSame(WorldOf(c, h), i, DiskAt(c, i), DiskAt(c, i));
  }

  /** Every step of the cluster keeps the invariant, for a history that only grows; what it adds to
      the chosen log, some disk has committed. */
  lemma StepInv(c: State, h: History, s: Step, c': State) returns (g: History)
    requires ClusterInv(c, h) && Next(c, s, c') && Careful(c, s)
    ensures ClusterInv(c', g) && GrowsBy(h, g, s.id)
    ensures forall k: Id :: StepsForward(c, h, c', g, k)
    ensures CommittedBySome(c, |h.chosen|) ==> CommittedBySome(c', |g.chosen|)
  {
    match s {
      case Complete(i, a) => g := CompleteReaches(c, h, i, a, c');
      case CrashDuring(i, a, j) => g := CrashReaches(c, h, i, a, j, c');
      case Restart(i) => g := h; RestartReaches(c, h, i, c');
      case Idle(i) => g := h; IdleReaches(c, h, i);
    }
    Assemble(c, h, s.id, c', g);
    AllMoveForward(c, h, s.id, c', g);
    ChosenIsCommitted(c, h, s.id, c', g);
  }

  /** Some disk, up or down, has everything up to `index` committed. */
  ghost predicate CommittedBySome(c: State, index: nat) {
    exists i: Id {:trigger DiskAt(c, i)} :: i in c.slots && index <= DiskAt(c, i).Commit()
  }

  lemma ChosenIsCommitted(c: State, h: History, i: Id, c': State, g: History)
    requires i in c'.slots && ChosenBy(h, g, StableOf(g, DiskAt(c', i)))
    requires forall k: Id {:trigger StepsForward(c, h, c', g, k)} :: StepsForward(c, h, c', g, k)
    ensures CommittedBySome(c, |h.chosen|) ==> CommittedBySome(c', |g.chosen|)
  {
    if CommittedBySome(c, |h.chosen|) {
      var m: Id :| m in c.slots && |h.chosen| <= DiskAt(c, m).Commit();
      assert StepsForward(c, h, c', g, m);
      if g.chosen == h.chosen {
        assert |g.chosen| <= DiskAt(c', m).Commit();
      } else {
        assert |g.chosen| <= DiskAt(c', i).Commit();
      }
    }
  }

  lemma AllMoveForward(c: State, h: History, i: Id, c': State, g: History)
    requires ClusterInv(c, h) && i in c'.slots && c'.slots == c.slots[i := c'.slots[i]]
    requires Reaches(WorldOf(c, h), i, g, DiskAt(c', i))
    ensures forall k: Id :: StepsForward(c, h, c', g, k)
  {
    SameWorld(c, h, i, c', g);
    forall k: Id ensures StepsForward(c, h, c', g, k) {
      assert WorldOf(c', g).nodes[k] == StableOf(g, DiskAt(c', k));
    }
  }

  /** Node `i`'s durable state moved forward from `c` to `c'`. */
  ghost predicate StepsForward(c: State, h: History, c': State, g: History, i: Id) {
    && i in c.slots && i in c'.slots
    && Forward(StableOf(h, DiskAt(c, i)), StableOf(g, DiskAt(c', i)))
  }

  const NO_HISTORY := History(map[], map[], map[], {}, [])

  lemma InitInv(c: State)
    requires Init(c)
    ensures ClusterInv(c, NO_HISTORY)
  {
    forall i: Id ensures SlotOk(NO_HISTORY, c.slots[i], i) { }
    forall n: Id ensures NodeInv(NO_HISTORY, WorldOf(c, NO_HISTORY).nodes[n], n) { }
    forall n: Id, t: nat, t0: nat ensures BallotKept(NO_HISTORY, n, t, t0) { }
  }

  // ---------- every run keeps the invariant ----------

  ghost predicate AllInv(states: seq<State>, hs: seq<History>) {
    && |hs| == |states|
    && forall k {:trigger ClusterInv(states[k], hs[k])} :: 0 <= k < |states| ==> ClusterInv(states[k], hs[k])
  }

  ghost predicate AllGrow(hs: seq<History>) {
    forall j, k {:trigger Grows(hs[j], hs[k])} :: 0 <= j <= k < |hs| ==> Grows(hs[j], hs[k])
  }

  ghost predicate AllForward(states: seq<State>, hs: seq<History>) {
    && |hs| == |states|
    && forall j, k, i: Id {:trigger StepsForward(states[j], hs[j], states[k], hs[k], i)} ::
         0 <= j <= k < |states| ==> StepsForward(states[j], hs[j], states[k], hs[k], i)
  }

  ghost predicate AllCommitted(states: seq<State>, hs: seq<History>) {
    && |hs| == |states|
    && forall k {:trigger CommittedBySome(states[k], |hs[k].chosen|)} ::
         0 <= k < |states| ==> CommittedBySome(states[k], |hs[k].chosen|)
  }

  /** Histories that explain a run, one per state. */
  lemma {:induction false} RunInv(states: seq<State>, steps: seq<Step>) returns (hs: seq<History>)
    requires CarefulRun(states, steps)
    ensures AllInv(states, hs) && AllGrow(hs) && AllForward(states, hs) && AllCommitted(states, hs)
    decreases |steps|
  {
    var last := |steps|;
    if last == 0 {
      InitInv(states[0]);
      hs := [NO_HISTORY];
      SameHistory(NO_HISTORY, 1);
      assert 0 <= DiskAt(states[0], 1).Commit();
    } else {
      var past := RunInv(states[..last], steps[..last - 1]);
      var c, h := states[last - 1], past[last - 1];
      assert ClusterInv(states[..last][last - 1], past[last - 1]);
      assert Next(states[last - 1], steps[last - 1], states[last]) && Careful(states[last - 1], steps[last - 1]);
      var g := StepInv(c, h, steps[last - 1], states[last]);
      hs := past + [g];
      InvExtends(states, past, g);
      GrowExtends(past, g);
      ForwardExtends(states, past, g);
      CommittedExtends(states, past, g);
    }
  }

  lemma CommittedExtends(states: seq<State>, past: seq<History>, g: History)
    requires |states| > 1 && AllCommitted(states[..|states| - 1], past)
    requires CommittedBySome(states[|states| - 2], |past[|past| - 1].chosen|) ==>
              CommittedBySome(states[|states| - 1], |g.chosen|)
    ensures AllCommitted(states, past + [g])
  {
    var last := |states| - 1;
    forall k | 0 <= k < |states| ensures CommittedBySome(states[k], |(past + [g])[k].chosen|) {
      assert CommittedBySome(states[..last][last - 1], |past[last - 1].chosen|);
      if k < last { assert CommittedBySome(states[..last][k], |past[k].chosen|); }
    }
  }

  lemma InvExtends(states: seq<State>, past: seq<History>, g: History)
    requires |states| > 1 && AllInv(states[..|states| - 1], past)
    requires ClusterInv(states[|states| - 1], g)
    ensures AllInv(states, past + [g])
  {
    var last := |states| - 1;
    forall k | 0 <= k < |states| ensures ClusterInv(states[k], (past + [g])[k]) {
      if k < last { assert ClusterInv(states[..last][k], past[k]); }
    }
  }

  lemma GrowExtends(past: seq<History>, g: History)
    requires |past| > 0 && AllGrow(past) && Grows(past[|past| - 1], g)
    ensures AllGrow(past + [g])
  {
    var hs, last := past + [g], |past|;
    SameHistory(g, 1);
    forall j, k | 0 <= j <= k < |hs| ensures Grows(hs[j], hs[k]) {
      if j < last {
        assert Grows(past[j], past[last - 1]);
        if k == last { GrowsTrans(past[j], past[last - 1], g); } else { assert Grows(past[j], past[k]); }
      }
    }
  }

  lemma ForwardExtends(states: seq<State>, past: seq<History>, g: History)
    requires |states| > 1 && AllForward(states[..|states| - 1], past)
    requires forall i: Id {:trigger StepsForward(states[|states| - 2], past[|past| - 1], states[|states| - 1], g, i)} ::
               StepsForward(states[|states| - 2], past[|past| - 1], states[|states| - 1], g, i)
    ensures AllForward(states, past + [g])
  {
    var hs, last := past + [g], |past|;
    forall j, k, i: Id | 0 <= j <= k < |states| ensures StepsForward(states[j], hs[j], states[k], hs[k], i) {
      assert StepsForward(states[last - 1], past[last - 1], states[last], g, i);
      if j < last {
        assert StepsForward(states[..last][j], past[j], states[..last][last - 1], past[last - 1], i);
        if k < last { assert StepsForward(states[..last][j], past[j], states[..last][k], past[k], i); }
      }
    }
  }

  // ---------- what a node can see of a whole log ----------

  /** Node `n` agrees with `log` on everything it retains up to index `k`, and on the term at
      its snapshot. */
  ghost predicate Holds(n: Node, log: Log, k: nat) {
    && n.offset <= k <= n.Last() && k <= |log|
    && n.offsetTerm == TermIn(log, n.offset)
    && forall x :: n.offset <= x < k ==> n.log[x - n.offset] == log[x]
  }

  lemma HoldsFull(h: History, n: Node, d: Disk, log: Log, k: nat)
    requires DiskOk(h, d) && Mirrors(n, d) && n.offset <= k
    requires Agree(Full(h.chosen, d), log, k)
    ensures Holds(n, log, k)
  {
    NodeLog(h, n, d);
    NodeTermAt(h, n, d, n.offset);
  }

  /** State machine safety: one log exists of which every node's committed entries, at every
      moment of the run, are a prefix; at the end some node has all of it committed. */
  lemma StateMachineSafety(states: seq<State>, steps: seq<Step>) returns (chosen: Log)
    requires CarefulRun(states, steps)
    ensures CommittedBySome(states[|states| - 1], |chosen|)
    ensures forall k, i: Id :: 0 <= k < |states| && Up(states[k], i) ==>
              Holds(NodeAt(states[k], i), chosen, NodeAt(states[k], i).commit)
  {
    var hs := RunInv(states, steps);
    var last := |states| - 1;
    chosen := hs[last].chosen;
    assert CommittedBySome(states[last], |hs[last].chosen|);
    forall k, i: Id | 0 <= k < |states| && Up(states[k], i)
      ensures Holds(NodeAt(states[k], i), chosen, NodeAt(states[k], i).commit)
    {
      var n, d, h := NodeAt(states[k], i), DiskAt(states[k], i), hs[k];
      assert ClusterInv(states[k], hs[k]) && Grows(hs[k], hs[last]);
      WorldLocal(states[k], h, i);
      var w := WorldOf(states[k], h);
      assert NodeInv(h, w.nodes[i], i);
      SettledIsChosen(w, w.nodes[i].log, n.commit, n.term);
      HoldsFull(h, n, d, chosen, n.commit);
    }
  }

  /** Two nodes that both have an index committed, at any two moments, hold the same entry there. */
  lemma CommittedEntriesAgree(states: seq<State>, steps: seq<Step>, j: nat, a: Id, k: nat, b: Id, index: nat)
    requires CarefulRun(states, steps) && j < |states| && k < |states|
    requires Up(states[j], a) && Up(states[k], b)
    requires NodeAt(states[j], a).offset < index <= NodeAt(states[j], a).commit <= NodeAt(states[j], a).Last()
    requires NodeAt(states[k], b).offset < index <= NodeAt(states[k], b).commit <= NodeAt(states[k], b).Last()
    ensures NodeAt(states[j], a).log[index - NodeAt(states[j], a).offset - 1] ==
            NodeAt(states[k], b).log[index - NodeAt(states[k], b).offset - 1]
  {
    var chosen := StateMachineSafety(states, steps);
    var n, m := NodeAt(states[j], a), NodeAt(states[k], b);
    assert Holds(n, chosen, n.commit) && Holds(m, chosen, m.commit);
    assert n.log[index - 1 - n.offset] == chosen[index - 1] == m.log[index - 1 - m.offset];
  }

  /** Leader completeness: a leader holds everything that any node, at any moment, has committed
      in an earlier term. */
  lemma LeadersHoldCommitted(states: seq<State>, steps: seq<Step>, j: nat, a: Id, k: nat, b: Id) returns (log: Log)
    requires CarefulRun(states, steps) && j < |states| && k < |states|
    requires Up(states[j], a) && Up(states[k], b)
    requires NodeAt(states[k], b).role.Leader? && NodeAt(states[j], a).term < NodeAt(states[k], b).term
    ensures Holds(NodeAt(states[j], a), log, NodeAt(states[j], a).commit)
    ensures NodeAt(states[j], a).commit <= NodeAt(states[k], b).Last()
    ensures Holds(NodeAt(states[k], b), log, NodeAt(states[k], b).Last())
  {
    var hs := RunInv(states, steps);
    var last := |states| - 1;
    var m := NodeAt(states[k], b);
    assert ClusterInv(states[j], hs[j]) && ClusterInv(states[k], hs[k]) && ClusterInv(states[last], hs[last]);
    assert Grows(hs[j], hs[last]) && Grows(hs[k], hs[k]) && Grows(hs[k], hs[last]);
    LeaderHolds(states[k], hs[k], hs[k], b);
    log := hs[k].leaders[m.term].log;
    assert LeaderGrows(hs[k], hs[last], m.term) && LeaderOk(hs[k], m.term);
    HeldBefore(states[j], hs[j], a, states[last], hs[last], m.term, log);
    WorldLocal(states[k], hs[k], b);
    NodeLog(hs[k], m, DiskAt(states[k], b));
  }

  /** A leader of a later term took office with everything that `a` had committed. */
  lemma HeldBefore(c: State, h: History, a: Id, e: State, g: History, t: nat, log: Log)
    requires ClusterInv(c, h) && ClusterInv(e, g) && Grows(h, g) && Up(c, a) && NodeAt(c, a).term < t
    requires t in g.leaders && Agree(g.leaders[t].base, log, |g.leaders[t].base|)
    ensures Holds(NodeAt(c, a), log, NodeAt(c, a).commit)
  {
    var n, s := NodeAt(c, a), WorldOf(c, h).nodes[a];
    WorldLocal(c, h, a);
    assert NodeInv(h, s, a);
    SettledGrows(h, g, s.log, s.log, n.commit, n.term, n.term);
    SettledInBase(WorldOf(e, g), s.log, n.commit, n.term, t);
    HoldsFull(h, n, DiskAt(c, a), log, n.commit);
  }

  lemma SettledInBase(w: World, log: Log, c: nat, bound: nat, t2: nat)
    requires Inv(w) && c <= |log|
    requires Settled(w.h, log, c, bound) && bound < t2 && t2 in w.h.leaders
    ensures Agree(log, w.h.leaders[t2].base, c)
  {
    if 0 < c {
      var t: nat, i: nat :| t <= bound && SettledBy(w.h, log, c, t, i);
      assert CommitOk(w.h, t, i);
      LeaderCompleteness(w, t, i, t2);
    }
  }

  /** Log matching through compaction: logs that agree on the term at an index, at any two
      moments and also at a snapshot boundary, agree on every entry up to it. */
  lemma LogsMatch(states: seq<State>, steps: seq<Step>, j: nat, a: Id, k: nat, b: Id, index: nat) returns (log: Log)
    requires CarefulRun(states, steps) && j <= k < |states|
    requires Up(states[j], a) && Up(states[k], b)
    requires NodeAt(states[j], a).offset <= index <= NodeAt(states[j], a).Last()
    requires NodeAt(states[k], b).offset <= index <= NodeAt(states[k], b).Last()
    requires NodeAt(states[j], a).TermAt(index) == NodeAt(states[k], b).TermAt(index)
    ensures Holds(NodeAt(states[j], a), log, index) && Holds(NodeAt(states[k], b), log, index)
  {
    var hs := RunInv(states, steps);
    var n, m := NodeAt(states[j], a), NodeAt(states[k], b);
    var d, e := DiskAt(states[j], a), DiskAt(states[k], b);
    assert ClusterInv(states[j], hs[j]) && ClusterInv(states[k], hs[k]) && Grows(hs[j], hs[k]);
    WorldLocal(states[j], hs[j], a);
    WorldLocal(states[k], hs[k], b);
    assert NodeInv(hs[j], WorldOf(states[j], hs[j]).nodes[a], a);
    assert NodeInv(hs[k], WorldOf(states[k], hs[k]).nodes[b], b);
    log := Full(hs[k].chosen, e);
    LogOkGrows(hs[j], hs[k], Full(hs[j].chosen, d));
    NodesMatch(hs[j], n, d, hs[k], m, e, index);
  }

  lemma NodesMatch(h: History, n: Node, d: Disk, g: History, m: Node, e: Disk, index: nat)
    requires DiskOk(h, d) && Mirrors(n, d) && DiskOk(g, e) && Mirrors(m, e)
    requires LogOk(g, Full(h.chosen, d)) && LogOk(g, Full(g.chosen, e)) && LeadersOk(g)
    requires n.offset <= index <= n.Last() && m.offset <= index <= m.Last() && n.TermAt(index) == m.TermAt(index)
    ensures Holds(n, Full(g.chosen, e), index) && Holds(m, Full(g.chosen, e), index)
  {
    NodeLog(h, n, d);
    NodeLog(g, m, e);
    NodeTermAt(h, n, d, index);
    NodeTermAt(g, m, e, index);
    if index > 0 { LogMatching(g, Full(h.chosen, d), Full(g.chosen, e), index - 1); }
    HoldsFull(h, n, d, Full(g.chosen, e), index);
    HoldsFull(g, m, e, Full(g.chosen, e), index);
  }

  /** Truthful progress: what a leader believes a follower to hold is within its own log, and is
      on the follower's disk for as long as the follower stays in the leader's term. */
  lemma TruthfulProgress(states: seq<State>, steps: seq<Step>, k: nat, a: Id, p: Id) returns (log: Log)
    requires CarefulRun(states, steps) && k < |states|
    requires Up(states[k], a) && NodeAt(states[k], a).role.Leader? && p in NodeAt(states[k], a).progress
    ensures NodeAt(states[k], a).progress[p].match_ <= NodeAt(states[k], a).Last()
    ensures Holds(NodeAt(states[k], a), log, NodeAt(states[k], a).Last())
    ensures p in states[k].slots
    ensures DiskAt(states[k], p).hs.term == NodeAt(states[k], a).term ==>
              DiskHolds(DiskAt(states[k], p), log, NodeAt(states[k], a).progress[p].match_)
  {
    var hs := RunInv(states, steps);
    var n, h := NodeAt(states[k], a), hs[k];
    assert ClusterInv(states[k], hs[k]);
    WorldLocal(states[k], h, a);
    WorldLocal(states[k], h, p);
    var w, d := WorldOf(states[k], h), DiskAt(states[k], p);
    assert ProgressOk(h, n, p);
    AckWithinLog(w, a, n, DiskAt(states[k], a), p);
    log := h.leaders[n.term].log;
    NodeLog(h, n, DiskAt(states[k], a));
    HoldsFull(h, n, DiskAt(states[k], a), log, n.Last());
    if d.hs.term == n.term {
      AckedIsHeld(w, p, d, n.progress[p].match_);
    }
  }

  /** What a member acknowledged in its current term, its disk holds. */
  lemma AckedIsHeld(w: World, p: Id, d: Disk, k: nat)
    requires Durable(w, p, d) && d.hs.term in w.h.leaders && k <= AckOf(w.h, p, d.hs.term)
    ensures DiskHolds(d, w.h.leaders[d.hs.term].log, k)
  {
    var t := d.hs.term;
    if k > 0 {
      assert NodeInv(w.h, w.nodes[p], p) && AckOk(w.h, w.nodes[p], p, t);
      assert Kept(w.h, w.nodes[p].log, t + 1, t, k);
      assert Agree(w.nodes[p].log, w.h.leaders[t].log, k);
    }
  }

  /** A positive answer to an append or snapshot request. */
  predicate Acknowledges(m: Message) {
    (m.AppendEntriesResponse? || m.InstallSnapshotResponse?) && m.success
  }

  predicate Leads(n: Node, t: nat) {
    n.role.Leader? && n.term == t
  }

  /** No acknowledged entry is lost: the leaders of a term extend one log, and from the moment a
      member has acknowledged an index in that term its disk holds that log up to the index, for as
      long as its durable term stays, through every crash and restart. */
  lemma AcknowledgedIsKept(states: seq<State>, steps: seq<Step>, m: Message) returns (log: Log)
    requires CarefulRun(states, steps) && Acknowledges(m) && m in states[|states| - 1].net
    ensures forall k, a: Id :: 0 <= k < |states| && Up(states[k], a) && Leads(NodeAt(states[k], a), m.term) ==>
              Holds(NodeAt(states[k], a), log, NodeAt(states[k], a).Last())
    ensures IsMember(m.from)
    ensures forall k :: 0 <= k < |states| && m in states[k].net ==>
              && m.from in states[k].slots
              && (DiskAt(states[k], m.from).hs.term == m.term ==>
                      DiskHolds(DiskAt(states[k], m.from), log, m.matchIndex))
  {
    var hs := RunInv(states, steps);
    var last := |states| - 1;
    log := LeadLog(World(map[], hs[last]), m.term);
    assert ClusterInv(states[last], hs[last]) && MsgOk(hs[last], m);
    forall k, a: Id | 0 <= k < |states| && Up(states[k], a) && Leads(NodeAt(states[k], a), m.term)
      ensures Holds(NodeAt(states[k], a), log, NodeAt(states[k], a).Last())
    {
      assert ClusterInv(states[k], hs[k]) && Grows(hs[k], hs[last]);
      LeaderHolds(states[k], hs[k], hs[last], a);
    }
    forall k | 0 <= k < |states| && m in states[k].net
      ensures m.from in states[k].slots
      ensures DiskAt(states[k], m.from).hs.term == m.term ==> DiskHolds(DiskAt(states[k], m.from), log, m.matchIndex)
    {
      assert ClusterInv(states[k], hs[k]) && Grows(hs[k], hs[last]);
      AckerHolds(states[k], hs[k], hs[last], m);
    }
  }

  /** A leader's log is part of what the leaders of its term have written by the end. */
  lemma LeaderHolds(c: State, h: History, g: History, a: Id)
    requires ClusterInv(c, h) && Grows(h, g) && Up(c, a) && NodeAt(c, a).role.Leader?
    ensures NodeAt(c, a).term in g.leaders
    ensures Holds(NodeAt(c, a), g.leaders[NodeAt(c, a).term].log, NodeAt(c, a).Last())
  {
    var n := NodeAt(c, a);
    WorldLocal(c, h, a);
    assert LeaderGrows(h, g, n.term);
    NodeLog(h, n, DiskAt(c, a));
    HoldsFull(h, n, DiskAt(c, a), g.leaders[n.term].log, n.Last());
  }

  lemma AckerHolds(c: State, h: History, g: History, m: Message)
    requires ClusterInv(c, h) && Grows(h, g) && Acknowledges(m) && m in c.net
    ensures IsMember(m.from) && m.from in c.slots
    ensures DiskAt(c, m.from).hs.term == m.term ==>
              DiskHolds(DiskAt(c, m.from), LeadLog(World(map[], g), m.term), m.matchIndex)
  {
    assert MsgOk(h, m);
    var p: Id := m.from;
    WorldLocal(c, h, p);
    var d := DiskAt(c, p);
    if d.hs.term == m.term && m.matchIndex > 0 {
      var w := WorldOf(c, h);
      assert NodeInv(h, w.nodes[p], p) && AckOk(h, w.nodes[p], p, m.term);
      AckedIsHeld(w, p, d, m.matchIndex);
      assert LeaderGrows(h, g, m.term);
    }
  }

  /** A disk retains the entries of `log` up to index `k` that its snapshot does not cover. */
  ghost predicate DiskHolds(d: Disk, log: Log, k: nat) {
    && k <= d.snap.index + |d.entries| && k <= |log|
    && forall x :: d.snap.index <= x < k ==> d.entries[x - d.snap.index] == log[x]
  }
}
