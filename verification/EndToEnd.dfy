/** End-to-end results.  In every run of the system entries are applied once, in order and only
    when committed; where no snapshot is installed over an agreeing suffix, state machine safety
    reaches down to the key-value maps and the snapshots. */
module EndToEnd {
  import opened Proto
  import opened RaftNode
  import opened Replay
  import opened Cluster
  import opened Durability
  import opened Kv
  import opened Runtime
  import opened Effects
  import opened System
  import opened Circulation
  import opened Safety
  import opened ApplyOnce

  // ---------- the invariant ----------

  /** What holds of member `i`. */
  ghost predicate MemberOk(s: Sys, chosen: Ledger, i: Id) {
    && i in s.cluster.slots && (Up(s.cluster, i) ==> i in s.rts)
    && Faithful(chosen, DiskAt(s.cluster, i).snap.index, DiskAt(s.cluster, i).snap.state)
    && (Up(s.cluster, i) ==>
          var n := NodeAt(s.cluster, i);
          Faithful(chosen, n.offset, n.snapData) && ProcessOk(s.rts[i], n, chosen))
    && (i in s.rts && !Up(s.cluster, i) ==> TailOk(s.rts[i], chosen))
  }

  ghost predicate MessageOk(chosen: Ledger, m: Message) {
    m.InstallSnapshot? ==> Faithful(chosen, m.snapIndex, m.snapData)
  }

  ghost predicate SysOk(s: Sys, chosen: Ledger) {
    && (forall i: Id {:trigger MemberOk(s, chosen, i)} :: MemberOk(s, chosen, i))
    && (forall m {:trigger MessageOk(chosen, m)} :: m in s.cluster.net ==> MessageOk(chosen, m))
  }

  /** Every node's committed entries agree with the chosen log. */
  ghost predicate AllAgree(c: State, chosen: Ledger) {
    forall i: Id {:trigger Up(c, i)} :: Up(c, i) ==> Agrees(NodeAt(c, i), chosen)
  }

  lemma InitOk(s: Sys, chosen: Ledger)
    requires InitSys(s)
    ensures SysOk(s, chosen)
  {
    forall i: Id ensures MemberOk(s, chosen, i) {
      assert s.cluster.slots[i] == Slot([], Some(Fresh(i))) && s.rts[i] == Started(map[], 0);
      IdleOk(s.rts[i], Fresh(i), chosen);
    }
  }

  // ---------- steps of the queues alone ----------

  lemma QueueStep(s: Sys, i: Id, rt: Rt, past: Past, chosen: Ledger)
    requires SysOk(s, chosen) && i in s.rts
    requires if Up(s.cluster, i) then ProcessOk(rt, NodeAt(s.cluster, i), chosen) else TailOk(rt, chosen)
    ensures SysOk(s.(rts := s.rts[i := rt], past := past), chosen)
  {
    var s' := s.(rts := s.rts[i := rt], past := past);
    forall j: Id ensures MemberOk(s', chosen, j) { assert MemberOk(s, chosen, j); }
  }

  lemma RaftSideKeeps(s: Sys, st: SysStep, s': Sys, chosen: Ledger)
    requires SysOk(s, chosen) && AllAgree(s.cluster, chosen) && NextSys(s, st, s')
    requires st.DropAck? || st.RejectReads? || st.DispatchNext? || st.CaptureNow? || st.StartRestore?
    ensures SysOk(s', chosen)
  {
    var i := st.id;
    assert MemberOk(s, chosen, i);
    var rt, n := s.rts[i], NodeAt(s.cluster, i);
    match st
    case DropAck(_) => AcksInOrder(rt, n, chosen);
    case RejectReads(_) => DropReadsKeeps(rt, n, chosen); QueueStep(s, i, DropReads(rt), s.past, chosen);
    case DispatchNext(_) => DispatchKeeps(rt, n, chosen); QueueStep(s, i, Dispatch(rt, n), s.past, chosen);
    case CaptureNow(_) => CaptureKeeps(rt, n, chosen); QueueStep(s, i, Capture(rt), s.past, chosen);
    case StartRestore(_, m) =>
      assert MessageOk(chosen, m);
      BeginRestoreKeeps(rt, n, m, chosen);
      QueueStep(s, i, BeginRestore(rt, m), s.past, chosen);
  }

  lemma RunStoreKeeps(s: Sys, i: Id, s': Sys, chosen: Ledger)
    requires SysOk(s, chosen) && Circulates(s) && NextSys(s, RunStore(i), s')
    ensures SysOk(s', chosen)
  {
    assert MemberOk(s, chosen, i) && MemberWithin(s, i);
    if Up(s.cluster, i) {
      ServeKeeps(i, s.rts[i], NodeAt(s.cluster, i), chosen);
    } else {
      TailServes(i, s.rts[i], chosen);
    }
    QueueStep(s, i, ServeHead(i, s.rts[i]).rt, s'.past, chosen);
  }

  /** Requests and expiries touch only the queue of the Raft loop and the request tables. */
  lemma RequestKeeps(s: Sys, i: Id, rt: Rt, past: Past, t: RaftTask, chosen: Ledger)
    requires SysOk(s, chosen) && i in s.rts && !t.Ack? && !t.Captured?
    requires rt == s.rts[i].(raftQ := rt.raftQ, writes := rt.writes, gets := rt.gets)
    requires rt.raftQ == s.rts[i].raftQ || rt.raftQ == s.rts[i].raftQ + [t]
    ensures SysOk(s.(rts := s.rts[i := rt], past := past), chosen)
  {
    assert MemberOk(s, chosen, i);
    if Up(s.cluster, i) {
      PushKeeps(s.rts[i], NodeAt(s.cluster, i), t, chosen);
    } else {
      TailMoves(s.rts[i], rt, chosen);
    }
    QueueStep(s, i, rt, past, chosen);
  }

  lemma ClientStepKeeps(s: Sys, st: SysStep, s': Sys, chosen: Ledger)
    requires SysOk(s, chosen) && NextSys(s, st, s') && (st.Write? || st.Get? || st.Expire?)
    ensures SysOk(s', chosen)
  {
    var t := if st.Write? then ProposeTask(st.cmd) else if st.Get? then ReadTask(st.request)
        else CancelRead(st.request);
    RequestKeeps(s, st.id, s'.rts[st.id], s'.past, t, chosen);
  }

  // ---------- steps of the cluster ----------

  lemma DiskKeeps(wal: seq<Record>, rs: seq<Record>, n: Node, a: Action, chosen: Ledger)
    requires Faithful(chosen, Recover(wal).snap.index, Recover(wal).snap.state)
    requires forall k {:trigger RecordFrom(n, a, rs[k])} :: 0 <= k < |rs| ==> RecordFrom(n, a, rs[k])
    requires forall index: nat, state {:trigger SnapshotFrom(n, a, index, state)} ::
               SnapshotFrom(n, a, index, state) ==> Faithful(chosen, index, state)
    ensures Faithful(chosen, Recover(wal + rs).snap.index, Recover(wal + rs).snap.state)
  {
    ApplyAllConcat(EMPTY_DISK, wal, rs);
    ReplayedSnapshot(Recover(wal), rs);
    var snap := Recover(wal + rs).snap;
    if snap != Recover(wal).snap {
      var k :| 0 <= k < |rs| && rs[k] == SnapshotRecord(snap);
      assert RecordFrom(n, a, rs[k]);
      assert SnapshotFrom(n, a, snap.index, snap.state);
    }
  }

  /** Every snapshot that the action may store or send is faithful. */
  lemma SourcesFaithful(s: Sys, i: Id, a: Action, chosen: Ledger)
    requires SysOk(s, chosen) && i in s.rts && Enabled(s.cluster, i, a)
    requires MayCrashIn(s.rts[i], NodeAt(s.cluster, i), a)
    ensures forall index: nat, state {:trigger SnapshotFrom(NodeAt(s.cluster, i), a, index, state)} ::
              SnapshotFrom(NodeAt(s.cluster, i), a, index, state) ==> Faithful(chosen, index, state)
  {
    assert MemberOk(s, chosen, i);
    var rt := s.rts[i];
    if a.DoTakeSnapshot? {
      RaftPop(rt.raftQ, AcksDue(rt), rt.inFlight, chosen);
    }
    if a.DoReceive? {
      assert MessageOk(chosen, a.msg);
    }
  }

  lemma Others(s: Sys, s': Sys, chosen: Ledger, j: Id)
    requires MemberOk(s, chosen, j)
    requires j in s'.cluster.slots && s'.cluster.slots[j] == s.cluster.slots[j]
    requires (j in s'.rts <==> j in s.rts) && (j in s.rts ==> s'.rts[j] == s.rts[j])
    ensures MemberOk(s', chosen, j)
  {
  }

  /** The log of a member that ran some action and wrote a prefix of its records. */
  lemma ActorSnapshot(s: Sys, i: Id, a: Action, written: nat, chosen: Ledger)
    requires SysOk(s, chosen) && i in s.rts && Enabled(s.cluster, i, a)
    requires MayCrashIn(s.rts[i], NodeAt(s.cluster, i), a) && written <= |Act(NodeAt(s.cluster, i), a).records|
    ensures var d := Recover(s.cluster.slots[i].wal + Act(NodeAt(s.cluster, i), a).records[..written]);
            Faithful(chosen, d.snap.index, d.snap.state)
  {
    assert MemberOk(s, chosen, i);
    var n, e := NodeAt(s.cluster, i), Act(NodeAt(s.cluster, i), a);
    var rs := e.records[..written];
    ActSourced(n, a);
    SourcesFaithful(s, i, a, chosen);
    forall k | 0 <= k < |rs| ensures RecordFrom(n, a, rs[k]) { assert RecordFrom(n, a, e.records[k]); }
    DiskKeeps(s.cluster.slots[i].wal, rs, n, a, chosen);
  }

  /** Its memory, if it completed the action. */
  lemma ActorProcess(s: Sys, i: Id, a: Action, chosen: Ledger)
    requires SysOk(s, chosen) && Running(s, i) && Enabled(s.cluster, i, a) && Allowed(s.rts[i], NodeAt(s.cluster, i), a)
    ensures var n := NodeAt(s.cluster, i);
            var n' := Act(n, a).node;
            Faithful(chosen, n'.offset, n'.snapData) && ProcessOk(AfterAct(s.rts[i], n, a), n', chosen)
  {
    assert MemberOk(s, chosen, i);
    var n := NodeAt(s.cluster, i);
    ActSourced(n, a);
    SourcesFaithful(s, i, a, chosen);
    assert SnapshotFrom(n, a, Act(n, a).node.offset, Act(n, a).node.snapData);
    RaftKeeps(s.rts[i], n, a, chosen);
  }

  lemma SentOk(s: Sys, i: Id, a: Action, chosen: Ledger, m: Message)
    requires SysOk(s, chosen) && i in s.rts && Enabled(s.cluster, i, a)
    requires MayCrashIn(s.rts[i], NodeAt(s.cluster, i), a) && m in Act(NodeAt(s.cluster, i), a).msgs
    ensures MessageOk(chosen, m)
  {
    var n, e := NodeAt(s.cluster, i), Act(NodeAt(s.cluster, i), a);
    var k :| 0 <= k < |e.msgs| && e.msgs[k] == m;
    ActSourced(n, a);
    SourcesFaithful(s, i, a, chosen);
    assert MessageFrom(n, a, e.msgs[k]);
    assert m.InstallSnapshot? ==> SnapshotFrom(n, a, m.snapIndex, m.snapData);
  }

  lemma RunRaftKeeps(s: Sys, i: Id, a: Action, s': Sys, chosen: Ledger)
    requires SysOk(s, chosen) && NextSys(s, RunRaft(i, a), s')
    ensures SysOk(s', chosen)
  {
    var rs := Act(NodeAt(s.cluster, i), a).records;
    ActorSnapshot(s, i, a, |rs|, chosen);
    ActorProcess(s, i, a, chosen);
    assert rs[..|rs|] == rs;
    forall j: Id ensures MemberOk(s', chosen, j) {
      assert MemberOk(s, chosen, j);
      if j != i { Others(s, s', chosen, j); }
    }
    forall m | m in s'.cluster.net ensures MessageOk(chosen, m) {
      if m !in s.cluster.net { SentOk(s, i, a, chosen, m); }
    }
  }

  lemma CrashKeeps(s: Sys, i: Id, a: Action, written: nat, s': Sys, chosen: Ledger)
    requires SysOk(s, chosen) && NextSys(s, Crash(i, a, written), s')
    ensures SysOk(s', chosen)
  {
    assert MemberOk(s, chosen, i);
    ActorSnapshot(s, i, a, written, chosen);
    StopKeeps(s.rts[i], NodeAt(s.cluster, i), a, chosen);
    forall j: Id ensures MemberOk(s', chosen, j) {
      assert MemberOk(s, chosen, j);
      if j != i { Others(s, s', chosen, j); }
    }
  }

  lemma BootKeeps(s: Sys, i: Id, s': Sys, chosen: Ledger)
    requires SysOk(s, chosen) && AllAgree(s'.cluster, chosen) && NextSys(s, Boot(i), s')
    ensures SysOk(s', chosen)
  {
    var d := DiskAt(s.cluster, i);
    assert MemberOk(s, chosen, i) && Up(s'.cluster, i);
    RestoreMirrors(i, d);
    BootOk(d, NodeAt(s'.cluster, i), chosen);
    forall j: Id ensures MemberOk(s', chosen, j) {
      assert MemberOk(s, chosen, j);
      if j != i { Others(s, s', chosen, j); }
    }
  }

  lemma CancelHeadKeeps(s: Sys, i: Id, s': Sys, chosen: Ledger)
    requires SysOk(s, chosen) && NextSys(s, CancelHead(i), s')
    ensures SysOk(s', chosen)
  {
    assert MemberOk(s, chosen, i);
    CancelKeeps(s.rts[i], NodeAt(s.cluster, i), NodeAt(s'.cluster, i), chosen);
    assert s'.cluster.net == s.cluster.net && s'.cluster.slots[i].wal == s.cluster.slots[i].wal;
    forall j: Id ensures MemberOk(s', chosen, j) {
      assert MemberOk(s, chosen, j);
      if j != i { Others(s, s', chosen, j); }
    }
  }

  lemma StepKeeps(s: Sys, st: SysStep, s': Sys, chosen: Ledger)
    requires SysOk(s, chosen) && Circulates(s) && NextSys(s, st, s')
    requires AllAgree(s.cluster, chosen) && AllAgree(s'.cluster, chosen)
    ensures SysOk(s', chosen)
  {
    match st
    case RunRaft(i, a) => RunRaftKeeps(s, i, a, s', chosen);
    case DropAck(_) => RaftSideKeeps(s, st, s', chosen);
    case CancelHead(i) => CancelHeadKeeps(s, i, s', chosen);
    case RejectReads(_) => RaftSideKeeps(s, st, s', chosen);
    case DispatchNext(_) => RaftSideKeeps(s, st, s', chosen);
    case CaptureNow(_) => RaftSideKeeps(s, st, s', chosen);
    case StartRestore(_, _) => RaftSideKeeps(s, st, s', chosen);
    case RunStore(i) => RunStoreKeeps(s, i, s', chosen);
    case Write(_, _) => ClientStepKeeps(s, st, s', chosen);
    case Get(_, _, _) => ClientStepKeeps(s, st, s', chosen);
    case Expire(_, _) => ClientStepKeeps(s, st, s', chosen);
    case Crash(i, a, written) => CrashKeeps(s, i, a, written, s', chosen);
    case Boot(i) => BootKeeps(s, i, s', chosen);
  }

  // ---------- over whole runs ----------

  ghost predicate AllOk(ss: seq<Sys>, chosen: Ledger) {
    forall k {:trigger SysOk(ss[k], chosen)} ::
      0 <= k < |ss| ==> SysOk(ss[k], chosen) && AllAgree(ss[k].cluster, chosen) && Circulates(ss[k])
  }

  lemma {:induction false} OkUpTo(ss: seq<Sys>, steps: seq<SysStep>, chosen: Ledger, k: nat)
    requires SysRun(ss, steps) && k < |ss|
    requires forall j {:trigger ss[j]} :: 0 <= j < |ss| ==> AllAgree(ss[j].cluster, chosen)
    ensures SysOk(ss[k], chosen)
  {
    if k == 0 {
      InitOk(ss[0], chosen);
    } else {
      OkUpTo(ss, steps, chosen, k - 1);
      RunCirculates(ss, steps, k - 1);
      assert StepAt(ss, steps, k - 1);
      StepKeeps(ss[k - 1], steps[k - 1], ss[k], chosen);
    }
  }

  lemma AllUpTo(ss: seq<Sys>, steps: seq<SysStep>, chosen: Ledger)
    requires SysRun(ss, steps)
    requires forall j {:trigger ss[j]} :: 0 <= j < |ss| ==> AllAgree(ss[j].cluster, chosen)
    ensures AllOk(ss, chosen)
  {
    forall k | 0 <= k < |ss| ensures SysOk(ss[k], chosen) && AllAgree(ss[k].cluster, chosen) && Circulates(ss[k]) {
      OkUpTo(ss, steps, chosen, k);
      RunCirculates(ss, steps, k);
    }
  }

  /** The largest durable commit index. */
  lemma MostCommitted(c: State) returns (count: nat)
    requires forall i: Id :: i in c.slots
    ensures CommittedBySome(c, count)
    ensures forall i: Id {:trigger DiskAt(c, i)} :: DiskAt(c, i).Commit() <= count
  {
    var a, b, d := DiskAt(c, 1).Commit(), DiskAt(c, 2).Commit(), DiskAt(c, 3).Commit();
    count := if a >= b && a >= d then a else if b >= d then b else d;
  }

  /** The handoff is in order at every moment of every run, and goes no further than what some
      node has committed at the end. */
  lemma RunInOrder(ss: seq<Sys>, steps: seq<SysStep>) returns (count: nat)
    requires SysRun(ss, steps)
    ensures AllOk(ss, Many(count)) && CommittedBySome(ss[|ss| - 1].cluster, count)
  {
    ProjectedRun(ss, steps);
    var cs, last := Clusters(ss), |ss| - 1;
    forall i: Id ensures i in cs[last].slots { RestartSucceeds(cs, Projected(ss, steps), last, i); }
    count := MostCommitted(cs[last]);
    forall j {:trigger ss[j]} | 0 <= j < |ss| ensures AllAgree(ss[j].cluster, Many(count)) {
      forall i: Id | Up(ss[j].cluster, i) ensures NodeAt(ss[j].cluster, i).commit <= count {
        assert cs[j] == ss[j].cluster;
        RestartSucceeds(cs, Projected(ss, steps), j, i);
        DurableNeverGoesBack(cs, Projected(ss, steps), j, last, i);
      }
    }
    AllUpTo(ss, steps, Many(count));
  }

  /** One log explains every moment of a run; some node has all of it committed at the end. */
  lemma RunOk(ss: seq<Sys>, steps: seq<SysStep>) returns (chosen: Log)
    requires CarefulSysRun(ss, steps)
    ensures AllOk(ss, Chosen(chosen))
    ensures CommittedBySome(ss[|ss| - 1].cluster, |chosen|)
  {
    ProjectedRun(ss, steps);
    var cs := Clusters(ss);
    chosen := StateMachineSafety(cs, Projected(ss, steps));
    assert cs[|ss| - 1] == ss[|ss| - 1].cluster;
    forall j {:trigger ss[j]} | 0 <= j < |ss| ensures AllAgree(ss[j].cluster, Chosen(chosen)) {
      assert cs[j] == ss[j].cluster;
    }
    AllUpTo(ss, steps, Chosen(chosen));
  }

  // ---------- order, in every run ----------

  /** While a process runs, nothing in the handoff has stopped it, and its store is never behind
      its Raft core. */
  lemma NeverStops(ss: seq<Sys>, steps: seq<SysStep>, k: nat, i: Id)
    requires SysRun(ss, steps) && k < |ss| && Up(ss[k].cluster, i)
    ensures i in ss[k].rts && !ss[k].rts[i].stopped && NodeAt(ss[k].cluster, i).applied <= ss[k].rts[i].storeApplied
  {
    var count := RunInOrder(ss, steps);
    assert SysOk(ss[k], Many(count)) && MemberOk(ss[k], Many(count), i);
    NeverBehind(ss[k].rts[i], NodeAt(ss[k].cluster, i), Many(count));
  }

  /** Exactly once, in order: whenever the store loop of a running process takes an entry, it is the
      one after the last applied, its own node has it committed, and the step applies it. */
  lemma AppliedInOrder(ss: seq<Sys>, steps: seq<SysStep>, k: nat)
    requires SysRun(ss, steps) && k < |steps| && steps[k].RunStore? && Running(ss[k], steps[k].id)
    requires ss[k].rts[steps[k].id].storeQ != [] && ss[k].rts[steps[k].id].storeQ[0].ApplyTask?
    ensures var i := steps[k].id;
            var rt, e := ss[k].rts[i], ss[k].rts[i].storeQ[0].entry;
            && e.index == rt.storeApplied + 1 <= NodeAt(ss[k].cluster, i).commit
            && i in ss[k + 1].rts && ss[k + 1].rts[i].storeApplied == e.index
            && ss[k + 1].rts[i].store == ApplyEntry(rt.store, e)
  {
    var count := RunInOrder(ss, steps);
    var i := steps[k].id;
    assert SysOk(ss[k], Many(count)) && MemberOk(ss[k], Many(count), i) && MemberWithin(ss[k], i);
    assert StepAt(ss, steps, k);
    ApplyHeadKeeps(i, ss[k].rts[i], NodeAt(ss[k].cluster, i), Many(count));
  }

  /** The stop for an out-of-order acknowledgment cannot happen: no step ever meets one. */
  lemma AcknowledgmentsInOrder(ss: seq<Sys>, steps: seq<SysStep>, k: nat, i: Id)
    requires SysRun(ss, steps) && k < |ss| && Up(ss[k].cluster, i) && i in ss[k].rts
    requires ss[k].rts[i].raftQ != [] && ss[k].rts[i].raftQ[0].Ack?
    ensures InOrder(ss[k].rts[i], NodeAt(ss[k].cluster, i), ss[k].rts[i].raftQ[0].index)
  {
    var count := RunInOrder(ss, steps);
    assert SysOk(ss[k], Many(count)) && MemberOk(ss[k], Many(count), i);
    AcksInOrder(ss[k].rts[i], NodeAt(ss[k].cluster, i), Many(count));
  }

  lemma RunPrefix(ss: seq<Sys>, steps: seq<SysStep>, k: nat)
    requires SysRun(ss, steps) && k < |ss|
    ensures SysRun(ss[..k + 1], steps[..k])
  {
    var past, done := ss[..k + 1], steps[..k];
    forall x | 0 <= x < |done| ensures StepAt(past, done, x) {
      assert StepAt(ss, steps, x);
    }
  }

  /** Nothing is applied before it is committed: at every moment, what a store has applied is
      committed on some node's disk. */
  lemma AppliedIsCommitted(ss: seq<Sys>, steps: seq<SysStep>, k: nat, i: Id)
    requires SysRun(ss, steps) && k < |ss| && i in ss[k].rts
    ensures CommittedBySome(ss[k].cluster, ss[k].rts[i].storeApplied)
  {
    RunPrefix(ss, steps, k);
    var past := ss[..k + 1];
    var count := RunInOrder(past, steps[..k]);
    assert SysOk(past[k], Many(count)) && MemberOk(ss[k], Many(count), i);
    var m: Id :| m in ss[k].cluster.slots && count <= DiskAt(ss[k].cluster, m).Commit();
  }

  // ---------- contents, where one log is chosen ----------

  /** What `StoresAreFolds` says of one process at one moment. */
  ghost predicate StoreIsFold(s: Sys, chosen: Log, i: Id)
    requires i in s.rts
  {
    && Folded(Chosen(chosen), s.rts[i].storeApplied, s.rts[i].store)
    && CommittedBySome(s.cluster, s.rts[i].storeApplied)
    && (Up(s.cluster, i) ==> Holds(NodeAt(s.cluster, i), chosen, NodeAt(s.cluster, i).commit))
  }

  /** State machine safety down to the maps: at every moment, each process, running or stopping,
      holds exactly the fold of one log up to its applied index, and that much is committed on
      some disk; every node's committed entries are those of that log. */
  lemma StoresAreFolds(ss: seq<Sys>, steps: seq<SysStep>) returns (chosen: Log)
    requires CarefulSysRun(ss, steps)
    ensures CommittedBySome(ss[|ss| - 1].cluster, |chosen|)
    ensures forall k, i: Id {:trigger StoreIsFold(ss[k], chosen, i)} ::
              0 <= k < |ss| && i in ss[k].rts ==> StoreIsFold(ss[k], chosen, i)
  {
    chosen := RunOk(ss, steps);
    forall k, i: Id | 0 <= k < |ss| && i in ss[k].rts ensures StoreIsFold(ss[k], chosen, i) {
      assert SysOk(ss[k], Chosen(chosen)) && MemberOk(ss[k], Chosen(chosen), i);
      AppliedIsCommitted(ss, steps, k, i);
    }
  }

  /** Equal applied indexes mean equal maps, on any two nodes at any two moments. */
  lemma EqualAppliedEqualStores(ss: seq<Sys>, steps: seq<SysStep>, j: nat, a: Id, k: nat, b: Id)
    requires CarefulSysRun(ss, steps) && j < |ss| && k < |ss|
    requires a in ss[j].rts && b in ss[k].rts
    requires ss[j].rts[a].storeApplied == ss[k].rts[b].storeApplied
    ensures ss[j].rts[a].store == ss[k].rts[b].store
  {
    var chosen := StoresAreFolds(ss, steps);
    assert StoreIsFold(ss[j], chosen, a) && StoreIsFold(ss[k], chosen, b);
  }

  /** Snapshot faithfulness: every snapshot held in memory, on disk or in a message is the store
      after exactly the chosen entries up to its index. */
  lemma SnapshotsAreFolds(ss: seq<Sys>, steps: seq<SysStep>) returns (chosen: Log)
    requires CarefulSysRun(ss, steps)
    ensures forall k, i: Id :: 0 <= k < |ss| && Up(ss[k].cluster, i) ==>
              Faithful(Chosen(chosen), NodeAt(ss[k].cluster, i).offset, NodeAt(ss[k].cluster, i).snapData)
    ensures forall k, i: Id :: 0 <= k < |ss| && i in ss[k].cluster.slots ==>
              var d := DiskAt(ss[k].cluster, i); Faithful(Chosen(chosen), d.snap.index, d.snap.state)
    ensures forall k, m :: 0 <= k < |ss| && m in ss[k].cluster.net && m.InstallSnapshot? ==>
              Faithful(Chosen(chosen), m.snapIndex, m.snapData)
  {
    chosen := RunOk(ss, steps);
    forall k, i: Id | 0 <= k < |ss| && Up(ss[k].cluster, i)
      ensures Faithful(Chosen(chosen), NodeAt(ss[k].cluster, i).offset, NodeAt(ss[k].cluster, i).snapData)
    {
      assert SysOk(ss[k], Chosen(chosen)) && MemberOk(ss[k], Chosen(chosen), i);
    }
    forall k, i: Id | 0 <= k < |ss| && i in ss[k].cluster.slots
      ensures var d := DiskAt(ss[k].cluster, i); Faithful(Chosen(chosen), d.snap.index, d.snap.state)
    {
      assert SysOk(ss[k], Chosen(chosen)) && MemberOk(ss[k], Chosen(chosen), i);
    }
    forall k, m | 0 <= k < |ss| && m in ss[k].cluster.net && m.InstallSnapshot?
      ensures Faithful(Chosen(chosen), m.snapIndex, m.snapData)
    {
      assert SysOk(ss[k], Chosen(chosen)) && MessageOk(Chosen(chosen), m);
    }
  }
}
