/** What circulates in the system, in every run: log entries come from a proposal or a read and
    carry nothing but what the front end checked, and snapshots carry data.  So a node that went
    down at any point can start again (`RecoverySucceeds`).
 */
module Circulation {
  import opened Proto
  import opened RaftNode
  import opened Replay
  import opened Cluster
  import opened Durability
  import opened Runtime
  import opened Effects
  import opened System

  // ---------- the invariant ----------

  ghost predicate TasksWithin(q: seq<StoreTask>, known: set<Entry>) {
    forall k {:trigger q[k]} :: 0 <= k < |q| && q[k].ApplyTask? ==> q[k].entry in known
  }

  ghost predicate WalWithin(wal: seq<Record>, known: set<Entry>) {
    forall k {:trigger RecordWithin(wal[k], known)} :: 0 <= k < |wal| ==> RecordWithin(wal[k], known)
  }

  predicate HasData(index: nat, state: Option<Store>) {
    index > 0 ==> state.Some?
  }

  /** What member `i` holds. */
  ghost predicate MemberWithin(s: Sys, i: Id) {
    && i in s.cluster.slots
    && WalWithin(s.cluster.slots[i].wal, s.past.created)
    && HasData(DiskAt(s.cluster, i).snap.index, DiskAt(s.cluster, i).snap.state)
    && (Up(s.cluster, i) ==>
          LogWithin(NodeAt(s.cluster, i).log, s.past.created)
              && HasData(NodeAt(s.cluster, i).offset, NodeAt(s.cluster, i).snapData))
    && (i in s.rts ==> TasksWithin(s.rts[i].storeQ, s.past.created))
  }

  ghost predicate Fitting(known: set<Entry>) {
    forall e {:trigger e.Fits()} :: e in known ==> e.Fits()
  }

  ghost predicate Circulates(s: Sys) {
    && (forall i: Id {:trigger MemberWithin(s, i)} :: MemberWithin(s, i))
    && (forall m {:trigger MsgWithin(m, s.past.created)} :: m in s.cluster.net ==> MsgWithin(m, s.past.created))
    && Fitting(s.past.created)
  }

  // ---------- steps of the queues alone ----------

  lemma ServeTasks(id: Id, rt: Rt, known: set<Entry>)
    requires rt.storeQ != [] && TasksWithin(rt.storeQ, known)
    ensures TasksWithin(ServeHead(id, rt).rt.storeQ, known)
  {
    assert ServeHead(id, rt).rt.storeQ == rt.storeQ[1..];
  }

  lemma AfterActTasks(rt: Rt, n: Node, a: Action, known: set<Entry>)
    requires n.Valid() && TasksWithin(rt.storeQ, known)
    ensures TasksWithin(AfterAct(rt, n, a).storeQ, known)
  {
    if a.DoFinishReadIndex? {
      var more := Served(rt.rounds, a.read, n.applied);
      forall k {:trigger more[k]} | 0 <= k < |more| ensures more[k].ServeRead? {
        ServedTasks(rt.rounds, a.read, n.applied, k);
      }
    }
  }

  lemma DispatchTasks(rt: Rt, n: Node, known: set<Entry>)
    requires n.Valid() && LogWithin(n.log, known) && TasksWithin(rt.storeQ, known)
    ensures TasksWithin(Dispatch(rt, n).storeQ, known)
  {
    assert EntryIn(n.log, n.applied - n.offset, known);
  }

  /** A step that leaves the cluster and the created entries alone. */
  lemma QueueCirculates(s: Sys, i: Id, s': Sys)
    requires Circulates(s) && s'.cluster == s.cluster && s'.past.created == s.past.created
    requires i in s'.rts && s'.rts == s.rts[i := s'.rts[i]] && TasksWithin(s'.rts[i].storeQ, s.past.created)
    ensures Circulates(s')
  {
    forall j: Id ensures MemberWithin(s', j) { assert MemberWithin(s, j); }
    forall m | m in s'.cluster.net ensures MsgWithin(m, s'.past.created) { assert MsgWithin(m, s.past.created); }
  }

  lemma QueueStepCirculates(s: Sys, st: SysStep, s': Sys)
    requires Circulates(s) && NextSys(s, st, s')
    requires !st.RunRaft? && !st.Crash? && !st.Boot? && !st.CancelHead?
    ensures Circulates(s')
  {
    var i := st.id;
    assert MemberWithin(s, i);
    if st.RunStore? { ServeTasks(i, s.rts[i], s.past.created); }
    if st.DispatchNext? { DispatchTasks(s.rts[i], NodeAt(s.cluster, i), s.past.created); }
    QueueCirculates(s, i, s');
  }

  // ---------- steps of the cluster ----------

  lemma CreatesFit(s: Sys, i: Id, a: Action)
    requires Enabled(s.cluster, i, a) && Fitting(s.past.created)
    ensures Fitting(s.past.created + Creates(NodeAt(s.cluster, i), a))
  {
  }

  lemma WalGrows(wal: seq<Record>, rs: seq<Record>, known: set<Entry>, more: set<Entry>)
    requires WalWithin(wal, known) && known <= more
    requires forall k {:trigger RecordWithin(rs[k], more)} :: 0 <= k < |rs| ==> RecordWithin(rs[k], more)
    ensures WalWithin(wal + rs, more)
  {
    forall k | 0 <= k < |wal + rs| ensures RecordWithin((wal + rs)[k], more) {
      if k < |wal| { assert RecordWithin(wal[k], known); } else { assert RecordWithin(rs[k - |wal|], more); }
    }
  }

  /** Every snapshot that an action stores or sends carries data. */
  ghost predicate SourcesData(n: Node, a: Action) {
    HasData(n.offset, n.snapData) && (a.DoTakeSnapshot? ==> a.state.Some?)
  }

  lemma DiskData(wal: seq<Record>, rs: seq<Record>, n: Node, a: Action)
    requires HasData(Recover(wal).snap.index, Recover(wal).snap.state) && SourcesData(n, a)
    requires forall k {:trigger RecordFrom(n, a, rs[k])} :: 0 <= k < |rs| ==> RecordFrom(n, a, rs[k])
    ensures HasData(Recover(wal + rs).snap.index, Recover(wal + rs).snap.state)
  {
    ApplyAllConcat(EMPTY_DISK, wal, rs);
    ReplayedSnapshot(Recover(wal), rs);
    var snap := Recover(wal + rs).snap;
    if snap != Recover(wal).snap {
      var k :| 0 <= k < |rs| && rs[k] == SnapshotRecord(snap);
      assert RecordFrom(n, a, rs[k]);
    }
  }

  /** The log of a member that ran some action and wrote a prefix of its records. */
  lemma ActorDisk(s: Sys, i: Id, a: Action, written: nat)
    requires Circulates(s) && Enabled(s.cluster, i, a) && SourcesData(NodeAt(s.cluster, i), a)
    requires written <= |Act(NodeAt(s.cluster, i), a).records|
    ensures var wal := s.cluster.slots[i].wal + Act(NodeAt(s.cluster, i), a).records[..written];
            && HasData(Recover(wal).snap.index, Recover(wal).snap.state)
            && WalWithin(wal, s.past.created + Creates(NodeAt(s.cluster, i), a))
  {
    assert MemberWithin(s, i);
    var n, wal := NodeAt(s.cluster, i), s.cluster.slots[i].wal;
    var e, more := Act(n, a), s.past.created + Creates(n, a);
    var rs := e.records[..written];
    ActSourced(n, a);
    forall k | 0 <= k < |rs| ensures RecordFrom(n, a, rs[k]) { assert RecordFrom(n, a, e.records[k]); }
    DiskData(wal, rs, n, a);
    if a.DoReceive? { assert MsgWithin(a.msg, s.past.created); }
    ActWithin(n, a, s.past.created);
    forall k | 0 <= k < |rs| ensures RecordWithin(rs[k], more) { assert RecordWithin(e.records[k], more); }
    WalGrows(wal, rs, s.past.created, more);
  }

  /** Its memory, if it completed the action. */
  lemma ActorMemory(s: Sys, i: Id, a: Action)
    requires Circulates(s) && Enabled(s.cluster, i, a) && SourcesData(NodeAt(s.cluster, i), a)
    ensures var n' := Act(NodeAt(s.cluster, i), a).node;
            LogWithin(n'.log, s.past.created + Creates(NodeAt(s.cluster, i), a)) && HasData(n'.offset, n'.snapData)
  {
    assert MemberWithin(s, i);
    var n := NodeAt(s.cluster, i);
    ActSourced(n, a);
    assert SnapshotFrom(n, a, Act(n, a).node.offset, Act(n, a).node.snapData);
    if a.DoReceive? { assert MsgWithin(a.msg, s.past.created); }
    ActWithin(n, a, s.past.created);
  }

  lemma SentWithin(s: Sys, i: Id, a: Action, m: Message)
    requires Circulates(s) && Enabled(s.cluster, i, a) && m in Act(NodeAt(s.cluster, i), a).msgs
    ensures MsgWithin(m, s.past.created + Creates(NodeAt(s.cluster, i), a))
  {
    assert MemberWithin(s, i);
    var n := NodeAt(s.cluster, i);
    var e, more := Act(n, a), s.past.created + Creates(n, a);
    if a.DoReceive? { assert MsgWithin(a.msg, s.past.created); }
    ActWithin(n, a, s.past.created);
    var k :| 0 <= k < |e.msgs| && e.msgs[k] == m;
    assert MsgWithin(e.msgs[k], more);
  }

  lemma OthersWithin(s: Sys, s': Sys, j: Id)
    requires MemberWithin(s, j) && s.past.created <= s'.past.created
    requires j in s'.cluster.slots && s'.cluster.slots[j] == s.cluster.slots[j]
    requires j in s'.rts ==> j in s.rts && s'.rts[j] == s.rts[j]
    ensures MemberWithin(s', j)
  {
    var wal := s.cluster.slots[j].wal;
    forall k | 0 <= k < |wal| ensures RecordWithin(wal[k], s'.past.created) {
      assert RecordWithin(wal[k], s.past.created);
    }
    if Up(s.cluster, j) { LogWithinMore(NodeAt(s.cluster, j).log, s.past.created, s'.past.created); }
  }

  lemma RunRaftCirculates(s: Sys, i: Id, a: Action, s': Sys)
    requires Circulates(s) && NextSys(s, RunRaft(i, a), s')
    ensures Circulates(s')
  {
    var n, rs := NodeAt(s.cluster, i), Act(NodeAt(s.cluster, i), a).records;
    assert MemberWithin(s, i) && rs[..|rs|] == rs;
    ActorDisk(s, i, a, |rs|);
    ActorMemory(s, i, a);
    AfterActTasks(s.rts[i], n, a, s.past.created);
    forall j: Id ensures MemberWithin(s', j) {
      assert MemberWithin(s, j);
      if j != i { OthersWithin(s, s', j); }
    }
    forall m | m in s'.cluster.net ensures MsgWithin(m, s'.past.created) {
      if m in s.cluster.net {
        assert MsgWithin(m, s.past.created);
        MsgWithinMore(m, s.past.created, s'.past.created);
      } else {
        SentWithin(s, i, a, m);
      }
    }
    CreatesFit(s, i, a);
  }

  lemma CrashCirculates(s: Sys, i: Id, a: Action, written: nat, s': Sys)
    requires Circulates(s) && NextSys(s, Crash(i, a, written), s')
    ensures Circulates(s')
  {
    assert MemberWithin(s, i);
    ActorDisk(s, i, a, written);
    forall j: Id ensures MemberWithin(s', j) {
      assert MemberWithin(s, j);
      if j != i { OthersWithin(s, s', j); }
    }
    forall m | m in s'.cluster.net ensures MsgWithin(m, s'.past.created) {
      assert MsgWithin(m, s.past.created);
      MsgWithinMore(m, s.past.created, s'.past.created);
    }
    CreatesFit(s, i, a);
  }

  lemma BootCirculates(s: Sys, i: Id, s': Sys)
    requires Circulates(s) && NextSys(s, Boot(i), s')
    ensures Circulates(s')
  {
    forall j: Id ensures MemberWithin(s', j) {
      assert MemberWithin(s, j);
      if j != i { OthersWithin(s, s', j); } else { RecoveredWithin(s.cluster.slots[i].wal, s.past.created); }
    }
    forall m | m in s'.cluster.net ensures MsgWithin(m, s'.past.created) { assert MsgWithin(m, s.past.created); }
  }

  lemma {:induction false} RecoveredWithin(wal: seq<Record>, known: set<Entry>)
    requires WalWithin(wal, known)
    ensures LogWithin(Recover(wal).entries, known)
  {
    if |wal| > 0 {
      var front, last := wal[..|wal| - 1], wal[|wal| - 1];
      forall k | 0 <= k < |front| ensures RecordWithin(front[k], known) { assert RecordWithin(wal[k], known); }
      RecoveredWithin(front, known);
      assert RecordWithin(last, known);
      var d, log := Recover(front), Recover(wal).entries;
      assert Recover(wal) == ApplyRecord(d, last);
      var cut := |d.entries| - |log|;
      forall k ensures EntryIn(log, k, known) {
        assert EntryIn(d.entries, k, known) && EntryIn(d.entries, cut + k, known);
      }
    }
  }

  lemma CancelCirculates(s: Sys, i: Id, s': Sys)
    requires Circulates(s) && NextSys(s, CancelHead(i), s')
    ensures Circulates(s')
  {
    assert MemberWithin(s, i);
    assert s'.cluster.net == s.cluster.net && s'.cluster.slots[i].wal == s.cluster.slots[i].wal;
    forall j: Id ensures MemberWithin(s', j) {
      assert MemberWithin(s, j);
      if j != i { OthersWithin(s, s', j); }
    }
    forall m | m in s'.cluster.net ensures MsgWithin(m, s'.past.created) { assert MsgWithin(m, s.past.created); }
  }

  lemma StepCirculates(s: Sys, st: SysStep, s': Sys)
    requires Circulates(s) && NextSys(s, st, s')
    ensures Circulates(s')
  {
    match st
    case RunRaft(i, a) => RunRaftCirculates(s, i, a, s');
    case Crash(i, a, written) => CrashCirculates(s, i, a, written, s');
    case Boot(i) => BootCirculates(s, i, s');
    case CancelHead(i) => CancelCirculates(s, i, s');
    case _ => QueueStepCirculates(s, st, s');
  }

  // ---------- over whole runs ----------

  lemma {:induction false} RunCirculates(ss: seq<Sys>, steps: seq<SysStep>, k: nat)
    requires SysRun(ss, steps) && k < |ss|
    ensures Circulates(ss[k])
    decreases k
  {
    if k == 0 {
      forall i: Id ensures MemberWithin(ss[0], i) {
        assert ss[0].cluster.slots[i] == Slot([], Some(Fresh(i))) && ss[0].rts[i] == Started(map[], 0);
      }
    } else {
      RunCirculates(ss, steps, k - 1);
      assert StepAt(ss, steps, k - 1);
      StepCirculates(ss[k - 1], steps[k - 1], ss[k]);
    }
  }

  /** Recovery never fails: whatever prefix of its records a node wrote before it went down,
      reading them back and replaying the committed ones into the store raises no error, so a
      node that is down can always start again. */
  lemma RecoverySucceeds(ss: seq<Sys>, steps: seq<SysStep>, k: nat, i: Id)
    requires SysRun(ss, steps) && k < |ss|
    ensures i in ss[k].cluster.slots && Restorable(DiskAt(ss[k].cluster, i)) && Replayable(DiskAt(ss[k].cluster, i))
    ensures !Up(ss[k].cluster, i) ==> exists s :: NextSys(ss[k], Boot(i), s)
  {
    RunCirculates(ss, steps, k);
    assert MemberWithin(ss[k], i);
    ProjectedRun(ss, steps);
    assert Clusters(ss)[k] == ss[k].cluster;
    RestartSucceeds(Clusters(ss), Projected(ss, steps), k, i);
    var d, known := DiskAt(ss[k].cluster, i), ss[k].past.created;
    RecoveredWithin(ss[k].cluster.slots[i].wal, known);
    forall x | 0 <= x < d.Commit() - d.snap.index ensures d.entries[x].Fits() {
      assert EntryIn(d.entries, x, known);
    }
    if !Up(ss[k].cluster, i) {
      var c := ss[k].cluster;
      var c' := c.(slots := c.slots[i := c.slots[i].(node := Some(Restore(i, d)))]);
      var s := ss[k].(cluster := c', rts := ss[k].rts[i := Started(Recovered(d), d.Commit())]);
      assert NextSys(ss[k], Boot(i), s);
    }
  }
}
