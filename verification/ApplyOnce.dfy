/** The handoff between the two loops.  Entries are applied one at a time in order, and the stops
    for an index gap or an out-of-order acknowledgment are unreachable; measured against the
    chosen log, each store is its fold up to the applied index, and so is every snapshot.

    The order holds in every run.  The contents hold where one log is chosen, so the invariant
    takes that log as a parameter that may be absent.
 */
module ApplyOnce {
  import opened Proto
  import opened RaftNode
  import opened Replay
  import opened Cluster
  import opened Kv
  import opened Runtime
  import opened Effects
  import opened System
  import opened Safety

  /** What is claimed of the committed entries: the log they are in, or only how many there are. */
  datatype Ledger = Chosen(log: Log) | Many(count: nat) {
    function Size(): nat {
      if Chosen? then |log| else count
    }
  }

  /** A snapshot for `index` is the store after the first `index` chosen entries. */
  ghost predicate Faithful(chosen: Ledger, index: nat, state: Option<Store>) {
    index > 0 ==> index <= chosen.Size() && (chosen.Chosen? ==> state == Some(Fold(chosen.log, index)))
  }

  ghost predicate Folded(chosen: Ledger, index: nat, store: Store) {
    index <= chosen.Size() && (chosen.Chosen? ==> store == Fold(chosen.log, index))
  }

  /** `e` is the chosen entry at its index. */
  ghost predicate Listed(chosen: Ledger, e: Entry) {
    0 < e.index <= chosen.Size() && (chosen.Chosen? ==> e == chosen.log[e.index - 1])
  }

  /** The node's committed entries are the chosen ones. */
  ghost predicate Agrees(n: Node, chosen: Ledger) {
    n.commit <= chosen.Size() && (chosen.Chosen? ==> Holds(n, chosen.log, n.commit))
  }

  // ---------- the Raft loop's queue ----------

  function NumAcks(q: seq<RaftTask>): nat {
    if |q| == 0 then 0 else (if q[0].Ack? then 1 else 0) + NumAcks(q[1..])
  }

  ghost predicate RaftTaskOk(t: RaftTask, inFlight: Option<nat>, chosen: Ledger) {
    && (t.Ack? ==> inFlight == Some(t.index))
    && (t.Captured? ==> Folded(chosen, t.index, t.state))
  }

  /** `acks` acknowledgments are queued, all for the entry in flight. */
  ghost predicate RaftQOk(q: seq<RaftTask>, acks: nat, inFlight: Option<nat>, chosen: Ledger) {
    NumAcks(q) == acks && forall k {:trigger RaftTaskOk(q[k], inFlight, chosen)} ::
                            0 <= k < |q| ==> RaftTaskOk(q[k], inFlight, chosen)
  }

  lemma {:induction false} NumAcksPush(q: seq<RaftTask>, t: RaftTask)
    ensures NumAcks(q + [t]) == NumAcks(q) + if t.Ack? then 1 else 0
    decreases |q|
  {
    if |q| == 0 {
      assert (q + [t])[1..] == [];
    } else {
      NumAcksPush(q[1..], t);
      assert (q + [t])[1..] == q[1..] + [t];
    }
  }

  lemma RaftPush(q: seq<RaftTask>, t: RaftTask, acks: nat, inFlight: Option<nat>, chosen: Ledger)
    requires RaftQOk(q, acks, inFlight, chosen) && RaftTaskOk(t, inFlight, chosen)
    ensures RaftQOk(q + [t], acks + if t.Ack? then 1 else 0, inFlight, chosen)
  {
    NumAcksPush(q, t);
    var r := q + [t];
    forall k | 0 <= k < |r| ensures RaftTaskOk(r[k], inFlight, chosen) {
      if k < |q| { assert RaftTaskOk(q[k], inFlight, chosen); }
    }
  }

  lemma RaftPop(q: seq<RaftTask>, acks: nat, inFlight: Option<nat>, chosen: Ledger)
    requires RaftQOk(q, acks, inFlight, chosen) && |q| > 0
    ensures RaftTaskOk(q[0], inFlight, chosen) && (q[0].Ack? ==> acks > 0)
    ensures RaftQOk(q[1..], acks - if q[0].Ack? then 1 else 0, inFlight, chosen)
  {
    assert RaftTaskOk(q[0], inFlight, chosen);
    forall k | 0 <= k < |q[1..]| ensures RaftTaskOk(q[1..][k], inFlight, chosen) {
      assert RaftTaskOk(q[k + 1], inFlight, chosen);
    }
  }

  lemma {:induction false} RaftRetarget(q: seq<RaftTask>, inFlight: Option<nat>, next: Option<nat>, chosen: Ledger)
    requires RaftQOk(q, 0, inFlight, chosen)
    ensures RaftQOk(q, 0, next, chosen)
    decreases |q|
  {
    if |q| > 0 {
      RaftPop(q, 0, inFlight, chosen);
      RaftRetarget(q[1..], inFlight, next, chosen);
      forall k | 0 <= k < |q| ensures RaftTaskOk(q[k], next, chosen) {
        if k > 0 { assert RaftTaskOk(q[1..][k - 1], next, chosen); }
      }
    }
  }

  // ---------- the store loop's queue ----------

  function NumApplies(q: seq<StoreTask>): nat {
    if |q| == 0 then 0 else (if q[0].ApplyTask? then 1 else 0) + NumApplies(q[1..])
  }

  function NumRestores(q: seq<StoreTask>): nat {
    if |q| == 0 then 0 else (if q[0].RestoreTask? then 1 else 0) + NumRestores(q[1..])
  }

  /** The entry in flight, the snapshot being restored, and a bound for the reads to serve. */
  datatype Expect = Expect(inFlight: Option<nat>, blocked: Option<Message>, floor: nat)

  ghost predicate StoreTaskOk(t: StoreTask, x: Expect, chosen: Ledger) {
    && (t.ApplyTask? ==>
          x.inFlight == Some(t.entry.index) && Listed(chosen, t.entry))
    && (t.RestoreTask? ==>
          && x.blocked.Some? && x.blocked.value.InstallSnapshot?
          && t.index == x.blocked.value.snapIndex && t.state == x.blocked.value.snapData)
    && (t.ServeRead? ==> t.fence <= x.floor)
  }

  ghost predicate StoreQOk(q: seq<StoreTask>, applies: nat, restores: nat, x: Expect, chosen: Ledger) {
    && NumApplies(q) == applies && NumRestores(q) == restores
    && forall k {:trigger StoreTaskOk(q[k], x, chosen)} :: 0 <= k < |q| ==> StoreTaskOk(q[k], x, chosen)
  }

  lemma {:induction false} NumPush(q: seq<StoreTask>, t: StoreTask)
    ensures NumApplies(q + [t]) == NumApplies(q) + if t.ApplyTask? then 1 else 0
    ensures NumRestores(q + [t]) == NumRestores(q) + if t.RestoreTask? then 1 else 0
    decreases |q|
  {
    if |q| == 0 {
      assert (q + [t])[1..] == [];
    } else {
      NumPush(q[1..], t);
      assert (q + [t])[1..] == q[1..] + [t];
    }
  }

  lemma StorePush(q: seq<StoreTask>, t: StoreTask, applies: nat, restores: nat, x: Expect, chosen: Ledger)
    requires StoreQOk(q, applies, restores, x, chosen) && StoreTaskOk(t, x, chosen)
    ensures StoreQOk(q + [t], applies + if t.ApplyTask? then 1 else 0, restores + if t.RestoreTask? then 1 else 0, x,
                     chosen)
  {
    NumPush(q, t);
    var r := q + [t];
    forall k | 0 <= k < |r| ensures StoreTaskOk(r[k], x, chosen) {
      if k < |q| { assert StoreTaskOk(q[k], x, chosen); }
    }
  }

  /** Tasks that neither apply nor restore. */
  predicate Quiet(t: StoreTask) {
    !t.ApplyTask? && !t.RestoreTask?
  }

  lemma {:induction false} StorePushAll(q: seq<StoreTask>, more: seq<StoreTask>, applies: nat, restores: nat,
                                        x: Expect, chosen: Ledger)
    requires StoreQOk(q, applies, restores, x, chosen)
    requires forall k {:trigger more[k]} :: 0 <= k < |more| ==> Quiet(more[k]) && StoreTaskOk(more[k], x, chosen)
    ensures StoreQOk(q + more, applies, restores, x, chosen)
    decreases |more|
  {
    if |more| == 0 {
      assert q + more == q;
    } else {
      var front, t := more[..|more| - 1], more[|more| - 1];
      StorePushAll(q, front, applies, restores, x, chosen);
      StorePush(q + front, t, applies, restores, x, chosen);
      assert q + front + [t] == q + more;
    }
  }

  lemma StorePop(q: seq<StoreTask>, applies: nat, restores: nat, x: Expect, chosen: Ledger)
    requires StoreQOk(q, applies, restores, x, chosen) && |q| > 0
    ensures StoreTaskOk(q[0], x, chosen) && (q[0].ApplyTask? ==> applies > 0) && (q[0].RestoreTask? ==> restores > 0)
    ensures StoreQOk(q[1..], applies - if q[0].ApplyTask? then 1 else 0, restores - if q[0].RestoreTask? then 1 else 0,
                     x, chosen)
  {
    assert StoreTaskOk(q[0], x, chosen);
    forall k | 0 <= k < |q[1..]| ensures StoreTaskOk(q[1..][k], x, chosen) {
      assert StoreTaskOk(q[k + 1], x, chosen);
    }
  }

  /** What is expected may change where nothing in the queue depends on it. */
  lemma {:induction false} StoreRetarget(q: seq<StoreTask>, applies: nat, restores: nat, x: Expect, y: Expect,
                                         chosen: Ledger)
    requires StoreQOk(q, applies, restores, x, chosen) && x.floor <= y.floor
    requires (applies == 0 || y.inFlight == x.inFlight) && (restores == 0 || y.blocked == x.blocked)
    ensures StoreQOk(q, applies, restores, y, chosen)
    decreases |q|
  {
    if |q| > 0 {
      StorePop(q, applies, restores, x, chosen);
      StoreRetarget(q[1..], applies - if q[0].ApplyTask? then 1 else 0,
                    restores - if q[0].RestoreTask? then 1 else 0, x, y, chosen);
      forall k | 0 <= k < |q| ensures StoreTaskOk(q[k], y, chosen) {
        if k > 0 { assert StoreTaskOk(q[1..][k - 1], y, chosen); }
      }
    }
  }

  // ---------- the invariant of one process ----------

  /** Where the one entry in flight, or the one restoration, currently is. */
  ghost predicate Phase(rt: Rt, n: Node, chosen: Ledger) {
    && (rt.restoreDone ==> rt.blocked.Some?)
    && match rt.inFlight
       case None => (
         match rt.blocked
         case None => rt.storeApplied == n.applied
         case Some(m) =>
           && m.InstallSnapshot? && Installs(n, m, true) && Faithful(chosen, m.snapIndex, m.snapData)
           && rt.storeApplied == if rt.restoreDone then m.snapIndex else n.applied)
       case Some(x) =>
         && rt.blocked.None?
         && x == n.applied + 1 <= n.commit
         && (rt.storeApplied == n.applied || rt.storeApplied == x)
  }

  /** The entry in flight waits to be applied, or to be acknowledged. */
  function AppliesDue(rt: Rt): nat {
    if rt.inFlight.Some? && rt.storeApplied != rt.inFlight.value then 1 else 0
  }

  function AcksDue(rt: Rt): nat {
    if rt.inFlight.Some? && rt.storeApplied == rt.inFlight.value then 1 else 0
  }

  function RestoresDue(rt: Rt): nat {
    if rt.blocked.Some? && !rt.restoreDone then 1 else 0
  }

  ghost function Expected(rt: Rt): Expect {
    Expect(rt.inFlight, rt.blocked, rt.storeApplied)
  }

  ghost predicate ProcessOk(rt: Rt, n: Node, chosen: Ledger) {
    && !rt.stopped
    && Folded(chosen, rt.storeApplied, rt.store)
    && Phase(rt, n, chosen)
    && RaftQOk(rt.raftQ, AcksDue(rt), rt.inFlight, chosen)
    && StoreQOk(rt.storeQ, AppliesDue(rt), RestoresDue(rt), Expected(rt), chosen)
  }

  lemma NeverBehind(rt: Rt, n: Node, chosen: Ledger)
    requires ProcessOk(rt, n, chosen)
    ensures n.applied <= rt.storeApplied
  {
  }

  // ---------- the Raft loop keeps it ----------

  /** Actions that touch neither the queue nor the applied index. */
  lemma PlainActKeeps(rt: Rt, n: Node, n': Node, a: Action, chosen: Ledger)
    requires ProcessOk(rt, n, chosen) && n.Valid() && rt.blocked.None?
    requires a.DoTick? || a.DoReceive?
    requires n'.applied == n.applied && n.commit <= n'.commit
    ensures ProcessOk(AfterAct(rt, n, a), n', chosen)
  {
  }

  lemma TaskKeeps(rt: Rt, n: Node, n': Node, a: Action, chosen: Ledger)
    requires ProcessOk(rt, n, chosen) && n.Valid() && Allowed(rt, n, a)
    requires (a.DoPropose? || a.DoReadIndex? || a.DoTakeSnapshot?)
    requires n'.applied == n.applied && n.commit <= n'.commit
    ensures ProcessOk(AfterAct(rt, n, a), n', chosen)
  {
    RaftPop(rt.raftQ, AcksDue(rt), rt.inFlight, chosen);
    if a.DoPropose? {
      StorePush(rt.storeQ, RejectWrite(rt.raftQ[0].cmd.request), AppliesDue(rt), RestoresDue(rt), Expected(rt), chosen);
    } else if a.DoReadIndex? {
      StorePush(rt.storeQ, RejectRead(rt.raftQ[0].request), AppliesDue(rt), RestoresDue(rt), Expected(rt), chosen);
    }
  }

  lemma AdvanceKeeps(rt: Rt, n: Node, a: Action, chosen: Ledger)
    requires ProcessOk(rt, n, chosen) && n.Valid() && Allowed(rt, n, a) && a.DoAdvance?
    ensures ProcessOk(AfterAct(rt, n, a), Act(n, a).node, chosen)
  {
    var rt' := AfterAct(rt, n, a);
    RaftPop(rt.raftQ, AcksDue(rt), rt.inFlight, chosen);
    RaftRetarget(rt'.raftQ, rt.inFlight, None, chosen);
    StoreRetarget(rt.storeQ, 0, 0, Expected(rt), Expected(rt'), chosen);
  }

  lemma FinishReadKeeps(rt: Rt, n: Node, n': Node, a: Action, chosen: Ledger)
    requires ProcessOk(rt, n, chosen) && n.Valid() && Allowed(rt, n, a) && a.DoFinishReadIndex?
    requires n'.applied == n.applied && n.commit <= n'.commit
    ensures ProcessOk(AfterAct(rt, n, a), n', chosen)
  {
    NeverBehind(rt, n, chosen);
    var more := Served(rt.rounds, a.read, n.applied);
    forall k {:trigger more[k]} | 0 <= k < |more| ensures Quiet(more[k]) && StoreTaskOk(more[k], Expected(rt), chosen) {
      ServedTasks(rt.rounds, a.read, n.applied, k);
    }
    StorePushAll(rt.storeQ, more, AppliesDue(rt), RestoresDue(rt), Expected(rt), chosen);
  }

  lemma InstallKeeps(rt: Rt, n: Node, a: Action, chosen: Ledger)
    requires ProcessOk(rt, n, chosen) && n.Valid() && Allowed(rt, n, a) && a.DoReceive? && rt.blocked.Some?
    ensures ProcessOk(AfterAct(rt, n, a), Act(n, a).node, chosen)
  {
    InstallMoves(n, a);
    StoreRetarget(rt.storeQ, 0, 0, Expected(rt), Expected(AfterAct(rt, n, a)), chosen);
  }

  lemma RaftKeeps(rt: Rt, n: Node, a: Action, chosen: Ledger)
    requires ProcessOk(rt, n, chosen) && n.Valid() && Allowed(rt, n, a)
    requires n.commit <= Act(n, a).node.commit
    ensures ProcessOk(AfterAct(rt, n, a), Act(n, a).node, chosen)
  {
    ActSourced(n, a);
    var n' := Act(n, a).node;
    match a
    case DoTick(_) => PlainActKeeps(rt, n, n', a, chosen);
    case DoReceive(_, _, _) =>
      if rt.blocked.Some? { InstallKeeps(rt, n, a, chosen); } else { PlainActKeeps(rt, n, n', a, chosen); }
    case DoPropose(_) => TaskKeeps(rt, n, n', a, chosen);
    case DoAdvance(_) => AdvanceKeeps(rt, n, a, chosen);
    case DoTakeSnapshot(_, _) => TaskKeeps(rt, n, n', a, chosen);
    case DoReadIndex => TaskKeeps(rt, n, n', a, chosen);
    case DoFinishReadIndex(_) => FinishReadKeeps(rt, n, n', a, chosen);
  }

  /** Every acknowledgment at the head of the queue is the expected one. */
  lemma AcksInOrder(rt: Rt, n: Node, chosen: Ledger)
    requires ProcessOk(rt, n, chosen) && rt.raftQ != [] && rt.raftQ[0].Ack?
    ensures InOrder(rt, n, rt.raftQ[0].index)
  {
    RaftPop(rt.raftQ, AcksDue(rt), rt.inFlight, chosen);
  }

  lemma DispatchKeeps(rt: Rt, n: Node, chosen: Ledger)
    requires ProcessOk(rt, n, chosen) && n.Valid() && rt.blocked.None? && Agrees(n, chosen)
    ensures ProcessOk(Dispatch(rt, n), n, chosen)
  {
    if n.applied < n.commit && rt.inFlight.None? {
      var e, rt' := NextEntryToApply(n).value, Dispatch(rt, n);
      assert e.index == n.applied + 1 && Listed(chosen, e);
      RaftRetarget(rt.raftQ, None, rt'.inFlight, chosen);
      StoreRetarget(rt.storeQ, 0, 0, Expected(rt), Expected(rt'), chosen);
      StorePush(rt.storeQ, ApplyTask(e), 0, 0, Expected(rt'), chosen);
    }
  }

  lemma CaptureKeeps(rt: Rt, n: Node, chosen: Ledger)
    requires ProcessOk(rt, n, chosen)
    ensures ProcessOk(Capture(rt), n, chosen)
  {
    StorePush(rt.storeQ, CaptureTask, AppliesDue(rt), RestoresDue(rt), Expected(rt), chosen);
  }

  lemma DropReadsKeeps(rt: Rt, n: Node, chosen: Ledger)
    requires ProcessOk(rt, n, chosen)
    ensures ProcessOk(DropReads(rt), n, chosen)
  {
    StorePushAll(rt.storeQ, Refused(rt.rounds), AppliesDue(rt), RestoresDue(rt), Expected(rt), chosen);
  }

  lemma BeginRestoreKeeps(rt: Rt, n: Node, m: Message, chosen: Ledger)
    requires ProcessOk(rt, n, chosen) && rt.blocked.None? && rt.inFlight.None?
    requires m.InstallSnapshot? && Installs(n, m, true) && Faithful(chosen, m.snapIndex, m.snapData)
    ensures ProcessOk(BeginRestore(rt, m), n, chosen)
  {
    var rt' := BeginRestore(rt, m);
    StoreRetarget(rt.storeQ, 0, 0, Expected(rt), Expected(rt'), chosen);
    StorePush(rt.storeQ, RestoreTask(m.snapIndex, m.snapData), 0, 0, Expected(rt'), chosen);
  }

  lemma CancelKeeps(rt: Rt, n: Node, n': Node, chosen: Ledger)
    requires ProcessOk(rt, n, chosen) && rt.raftQ != [] && rt.raftQ[0].CancelRead?
    requires n'.applied == n.applied && n'.commit == n.commit && rt.blocked.None?
    ensures ProcessOk(Cancelled(rt), n', chosen)
  {
    RaftPop(rt.raftQ, AcksDue(rt), rt.inFlight, chosen);
  }

  lemma PushKeeps(rt: Rt, n: Node, t: RaftTask, chosen: Ledger)
    requires ProcessOk(rt, n, chosen) && !t.Ack? && !t.Captured?
    ensures ProcessOk(rt.(raftQ := rt.raftQ + [t]), n, chosen)
  {
    RaftPush(rt.raftQ, t, AcksDue(rt), rt.inFlight, chosen);
  }

  // ---------- the store loop keeps it ----------

  /** The entry handed over is the next one. */
  lemma HeadIsNext(rt: Rt, n: Node, chosen: Ledger)
    requires ProcessOk(rt, n, chosen) && rt.storeQ != [] && rt.storeQ[0].ApplyTask?
    ensures AppliesDue(rt) == 1 && RestoresDue(rt) == 0 && AcksDue(rt) == 0
    ensures rt.inFlight == Some(rt.storeQ[0].entry.index)
    ensures rt.storeQ[0].entry.index == rt.storeApplied + 1 <= n.commit && Listed(chosen, rt.storeQ[0].entry)
    ensures StoreQOk(rt.storeQ[1..], 0, 0, Expected(rt), chosen)
  {
    StorePop(rt.storeQ, AppliesDue(rt), RestoresDue(rt), Expected(rt), chosen);
  }

  /** Applying it extends the fold by it. */
  lemma ApplyHeadKeeps(id: Id, rt: Rt, n: Node, chosen: Ledger)
    requires ProcessOk(rt, n, chosen) && rt.storeQ != [] && rt.storeQ[0].ApplyTask? && rt.storeQ[0].entry.Fits()
    ensures rt.storeQ[0].entry.index == rt.storeApplied + 1 <= n.commit && Listed(chosen, rt.storeQ[0].entry)
    ensures ServeHead(id, rt).rt.storeApplied == rt.storeApplied + 1
    ensures ServeHead(id, rt).rt.store == ApplyEntry(rt.store, rt.storeQ[0].entry)
    ensures ProcessOk(ServeHead(id, rt).rt, n, chosen)
  {
    var e, rt' := rt.storeQ[0].entry, ServeHead(id, rt).rt;
    HeadIsNext(rt, n, chosen);
    assert rt'.store == ApplyEntry(rt.store, e);
    RaftPush(rt.raftQ, Ack(e.index), 0, rt.inFlight, chosen);
    StoreRetarget(rt'.storeQ, 0, 0, Expected(rt), Expected(rt'), chosen);
  }

  lemma RestoreHeadKeeps(id: Id, rt: Rt, n: Node, chosen: Ledger)
    requires ProcessOk(rt, n, chosen) && rt.storeQ != [] && rt.storeQ[0].RestoreTask?
    ensures ProcessOk(ServeHead(id, rt).rt, n, chosen)
  {
    var rt' := ServeHead(id, rt).rt;
    StorePop(rt.storeQ, AppliesDue(rt), RestoresDue(rt), Expected(rt), chosen);
    StoreRetarget(rt'.storeQ, 0, 0, Expected(rt), Expected(rt'), chosen);
  }

  lemma CaptureHeadKeeps(id: Id, rt: Rt, n: Node, chosen: Ledger)
    requires ProcessOk(rt, n, chosen) && rt.storeQ != [] && rt.storeQ[0].CaptureTask?
    ensures ProcessOk(ServeHead(id, rt).rt, n, chosen)
  {
    StorePop(rt.storeQ, AppliesDue(rt), RestoresDue(rt), Expected(rt), chosen);
    RaftPush(rt.raftQ, Captured(rt.storeApplied, rt.store), AcksDue(rt), rt.inFlight, chosen);
  }

  lemma ReplyHeadKeeps(id: Id, rt: Rt, n: Node, chosen: Ledger)
    requires ProcessOk(rt, n, chosen) && rt.storeQ != [] && Quiet(rt.storeQ[0]) && !rt.storeQ[0].CaptureTask?
    ensures ProcessOk(ServeHead(id, rt).rt, n, chosen)
  {
    var rt' := ServeHead(id, rt).rt;
    StorePop(rt.storeQ, AppliesDue(rt), RestoresDue(rt), Expected(rt), chosen);
    assert rt' == rt.(storeQ := rt.storeQ[1..], writes := rt'.writes, gets := rt'.gets);
  }

  lemma ServeKeeps(id: Id, rt: Rt, n: Node, chosen: Ledger)
    requires ProcessOk(rt, n, chosen) && rt.storeQ != []
    requires rt.storeQ[0].ApplyTask? ==> rt.storeQ[0].entry.Fits()
    ensures ProcessOk(ServeHead(id, rt).rt, n, chosen)
  {
    if rt.storeQ[0].ApplyTask? {
      ApplyHeadKeeps(id, rt, n, chosen);
    } else if rt.storeQ[0].RestoreTask? {
      RestoreHeadKeeps(id, rt, n, chosen);
    } else if rt.storeQ[0].CaptureTask? {
      CaptureHeadKeeps(id, rt, n, chosen);
    } else {
      ReplyHeadKeeps(id, rt, n, chosen);
    }
  }

  // ---------- stopping ----------

  /** A task that a stopping process may still run leaves it with a fold of the chosen log. */
  ghost predicate TailTaskOk(t: StoreTask, rt: Rt, chosen: Ledger) {
    && (t.RestoreTask? ==>
          && rt.blocked.Some? && rt.blocked.value.InstallSnapshot? && t.index == rt.blocked.value.snapIndex
          && 0 < t.index && rt.storeApplied <= t.index && Faithful(chosen, t.index, t.state))
    && (t.ServeRead? ==> t.fence <= rt.storeApplied)
  }

  ghost predicate TailOk(rt: Rt, chosen: Ledger) {
    && rt.stopped && Folded(chosen, rt.storeApplied, rt.store)
    && forall k {:trigger TailTaskOk(rt.storeQ[k], rt, chosen)} ::
         0 <= k < |rt.storeQ| ==> TailTaskOk(rt.storeQ[k], rt, chosen)
  }

  lemma {:induction false} NoRestores(q: seq<StoreTask>, k: nat)
    requires NumRestores(q) == 0 && k < |q|
    ensures !q[k].RestoreTask?
  {
    if k > 0 {
      NoRestores(q[1..], k - 1);
    }
  }

  lemma StopKeeps(rt: Rt, n: Node, a: Action, chosen: Ledger)
    requires ProcessOk(rt, n, chosen)
    ensures TailOk(Stopping(rt, a), chosen)
  {
    var rt' := Stopping(rt, a);
    forall k | 0 <= k < |rt'.storeQ| ensures TailTaskOk(rt'.storeQ[k], rt', chosen) {
      if k < |rt.storeQ| {
        assert StoreTaskOk(rt.storeQ[k], Expected(rt), chosen);
        if RestoresDue(rt) == 0 { NoRestores(rt.storeQ, k); }
      }
    }
  }

  /** Dropping the head keeps the rest, if the store stayed where it was or took the waiting snapshot. */
  lemma TailPops(rt: Rt, rt': Rt, chosen: Ledger)
    requires TailOk(rt, chosen) && rt.storeQ != []
    requires rt'.storeQ == rt.storeQ[1..] && rt'.blocked == rt.blocked && rt'.stopped
    requires Folded(chosen, rt'.storeApplied, rt'.store) && rt.storeApplied <= rt'.storeApplied
    requires (rt'.storeApplied == rt.storeApplied
              || (rt.blocked.Some? && rt.blocked.value.InstallSnapshot?
                  && rt'.storeApplied == rt.blocked.value.snapIndex))
    ensures TailOk(rt', chosen)
  {
    forall k | 0 <= k < |rt'.storeQ| ensures TailTaskOk(rt'.storeQ[k], rt', chosen) {
      assert TailTaskOk(rt.storeQ[k + 1], rt, chosen);
    }
  }

  lemma TailServes(id: Id, rt: Rt, chosen: Ledger)
    requires TailOk(rt, chosen) && rt.storeQ != []
    ensures TailOk(ServeHead(id, rt).rt, chosen)
  {
    assert TailTaskOk(rt.storeQ[0], rt, chosen);
    TailPops(rt, ServeHead(id, rt).rt, chosen);
  }

  /** Requests, answers and expiries do not touch what the store loop has to do. */
  lemma TailMoves(rt: Rt, rt': Rt, chosen: Ledger)
    requires TailOk(rt, chosen) && rt' == rt.(raftQ := rt'.raftQ, writes := rt'.writes, gets := rt'.gets)
    ensures TailOk(rt', chosen)
  {
    forall k | 0 <= k < |rt'.storeQ| ensures TailTaskOk(rt'.storeQ[k], rt', chosen) {
      assert TailTaskOk(rt.storeQ[k], rt, chosen);
    }
  }

  // ---------- start-up ----------

  /** A process with empty queues, nothing in flight and a store at the applied index. */
  lemma IdleOk(rt: Rt, n: Node, chosen: Ledger)
    requires |rt.raftQ| == 0 && |rt.storeQ| == 0 && rt.inFlight.None? && rt.blocked.None? && !rt.restoreDone
    requires !rt.stopped
    requires rt.storeApplied == n.applied && Folded(chosen, rt.storeApplied, rt.store)
    ensures ProcessOk(rt, n, chosen)
  {
  }

  lemma CommittedSlice(d: Disk, n: Node, chosen: Log)
    requires Restorable(d) && Mirrors(n, d) && Holds(n, chosen, n.commit)
    ensures d.snap.index <= d.Commit() <= |chosen|
    ensures d.entries[..d.Commit() - d.snap.index] == chosen[d.snap.index..d.Commit()]
  {
    var from := d.snap.index;
    assert forall i :: 0 <= i < d.Commit() - from ==> d.entries[i] == n.log[(from + i) - n.offset] == chosen[from + i];
  }

  lemma RecoveredFrom(d: Disk, chosen: Log, due: Log)
    requires Restorable(d) && d.snap.index <= |chosen| && Faithful(Chosen(chosen), d.snap.index, d.snap.state)
    requires d.entries[..d.Commit() - d.snap.index] == due
    ensures Recovered(d) == FoldFrom(Fold(chosen, d.snap.index), due)
  {
    if d.snap.index == 0 { assert Fold(chosen, 0) == map[]; }
  }

  /** Replaying the committed entries above the snapshot rebuilds the fold. */
  lemma RecoveredFold(d: Disk, n: Node, chosen: Log)
    requires Restorable(d) && Mirrors(n, d) && Holds(n, chosen, n.commit)
    requires Faithful(Chosen(chosen), d.snap.index, d.snap.state)
    ensures d.Commit() <= |chosen| && Recovered(d) == Fold(chosen, d.Commit())
  {
    CommittedSlice(d, n, chosen);
    FoldResumes(chosen, d.snap.index, d.Commit());
    RecoveredFrom(d, chosen, chosen[d.snap.index..d.Commit()]);
  }

  /** A restarted process is in order. */
  lemma BootOk(d: Disk, n: Node, chosen: Ledger)
    requires Restorable(d) && n.Valid() && Mirrors(n, d) && n.applied == d.Commit()
    requires Agrees(n, chosen) && Faithful(chosen, d.snap.index, d.snap.state)
    ensures ProcessOk(Started(Recovered(d), d.Commit()), n, chosen)
  {
    if chosen.Chosen? { RecoveredFold(d, n, chosen.log); }
    IdleOk(Started(Recovered(d), d.Commit()), n, chosen);
  }
}
