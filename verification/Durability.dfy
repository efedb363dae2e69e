/** What a node keeps across crashes, in every run of the cluster, also in those that install a
    snapshot over an agreeing suffix: its log can always be read back and equals its memory while
    it is up, terms and commit indexes never go back, and a vote stands for its term.
 */
module Durability {
  import opened Proto
  import opened RaftNode
  import opened Replay
  import opened Cluster

  // ---------- the invariant ----------

  ghost predicate SlotDurable(s: Slot, i: Id) {
    && Restorable(Recover(s.wal))
    && (s.node.Some? ==> s.node.value.id == i && s.node.value.Valid() && Mirrors(s.node.value, Recover(s.wal)))
  }

  /** A request's entries are numbered from its position, and reach its commit index. */
  ghost predicate WellMade(m: Message) {
    m.AppendEntries? ==> Numbered(m) && m.leaderCommit <= m.prevIndex + |m.entries|
  }

  ghost predicate DurableInv(c: State) {
    && (forall i: Id :: i in c.slots)
    && (forall i: Id {:trigger SlotDurable(c.slots[i], i)} :: SlotDurable(c.slots[i], i))
    && (forall m {:trigger WellMade(m)} :: m in c.net ==> WellMade(m))
  }

  // ---------- one entry point ----------

  /** Order is kept and a vote stands. */
  ghost predicate Steady(n: Node, n': Node) {
    Ordered(n, n') && (n'.term == n.term && n.vote != 0 ==> n'.vote == n.vote)
  }

  lemma AppendKeepsVote(n: Node, m: Message)
    requires m.AppendEntries?
    ensures var n' := HandleAppendEntries(n, m).node; n'.term == n.term ==> n'.vote == n.vote
  {
    var p := PrepareForLeaderRpc(n, m.from, m.to, m.term).node;
    assert AppendPrepared(p, m).node.term == p.term && AppendPrepared(p, m).node.vote == p.vote;
  }

  lemma ReceiveKeepsVote(n: Node, m: Message, heard: bool, restored: bool)
    ensures var n' := Receive(n, m, heard, restored).node; n'.term == n.term && n.vote != 0 ==> n'.vote == n.vote
  {
    match m
    case RequestVote(_, _, _, _, _) =>
    case RequestVoteResponse(_, _, _, _) =>
    case PreVote(_, _, _, _, _) =>
    case PreVoteResponse(_, _, _, _, _) =>
    case AppendEntries(_, _, _, _, _, _, _, _) => AppendKeepsVote(n, m);
    case AppendEntriesResponse(_, _, _, _, _, _) =>
    case InstallSnapshot(_, _, _, _, _, _) =>
    case InstallSnapshotResponse(_, _, _, _, _) =>
  }

  lemma ActSteady(n: Node, a: Action)
    requires n.Valid() && Sound(a)
    ensures Steady(n, Act(n, a).node)
  {
    ActKeepsOrder(n, a);
    if a.DoReceive? { ReceiveKeepsVote(n, a.msg, a.heardRecently, a.restored); }
  }

  // ---------- what it sends ----------

  lemma MessageForWellMade(n: Node, peer: nat)
    requires n.Valid()
    ensures WellMade(MessageFor(n, peer))
  {
  }

  lemma BroadcastWellMade(n: Node, m: Message)
    requires n.Valid() && m in Broadcast(n)
    ensures WellMade(m)
  {
    MessageForWellMade(n, Peers(n.id)[0]);
    MessageForWellMade(n, Peers(n.id)[1]);
  }

  /** Requests leave a node only in a broadcast of the state it ends in. */
  lemma AppendsAreBroadcast(n: Node, a: Action, m: Message)
    requires n.Valid() && m in Act(n, a).msgs && m.AppendEntries?
    ensures m in Broadcast(Act(n, a).node)
  {
    match a
    case DoTick(_) =>
    case DoReceive(r, heard, restored) => ReceivedBroadcast(n, r, heard, restored, m);
    case DoPropose(_) =>
    case DoAdvance(_) =>
    case DoTakeSnapshot(_, _) =>
    case DoReadIndex => if n.role.Leader? && !n.readPending { OpenedShape(n); }
    case DoFinishReadIndex(_) =>
  }

  lemma ReceivedBroadcast(n: Node, r: Message, heard: bool, restored: bool, m: Message)
    requires m in Receive(n, r, heard, restored).msgs && m.AppendEntries?
    ensures m in Broadcast(Receive(n, r, heard, restored).node)
  {
    match r
    case RequestVoteResponse(_, _, _, _) => ElectedBroadcast(n, r, m);
    case PreVoteResponse(_, _, _, _, _) => CampaignAppendsNothing(n, r, m);
    case AppendEntriesResponse(_, _, _, _, _, _) => RetryBroadcast(n, r, m);
    case InstallSnapshotResponse(_, _, _, _, _) => InstalledBroadcast(n, r, m);
    case _ => AnswersAppendNothing(n, r, heard, restored, m);
  }

  /** A new leader. */
  lemma ElectedBroadcast(n: Node, r: Message, m: Message)
    requires r.RequestVoteResponse? && m in HandleRequestVoteResponse(n, r).msgs
    ensures m in Broadcast(HandleRequestVoteResponse(n, r).node)
  {
  }

  /** A new candidate asks for votes. */
  lemma CampaignAppendsNothing(n: Node, r: Message, m: Message)
    requires r.PreVoteResponse? && m in HandlePreVoteResponse(n, r).msgs
    ensures !m.AppendEntries?
  {
  }

  /** A leader that backs up sends again. */
  lemma RetryBroadcast(n: Node, r: Message, m: Message)
    requires r.AppendEntriesResponse? && m in HandleAppendEntriesResponse(n, r).msgs && m.AppendEntries?
    ensures m in Broadcast(HandleAppendEntriesResponse(n, r).node)
  {
  }

  /** A leader whose snapshot was installed goes on behind it. */
  lemma InstalledBroadcast(n: Node, r: Message, m: Message)
    requires r.InstallSnapshotResponse? && m in HandleInstallSnapshotResponse(n, r).msgs
    ensures m in Broadcast(HandleInstallSnapshotResponse(n, r).node)
  {
  }

  /** Every other handler only answers. */
  lemma AnswersAppendNothing(n: Node, r: Message, heard: bool, restored: bool, m: Message)
    requires r.RequestVote? || r.PreVote? || r.AppendEntries? || r.InstallSnapshot?
    requires m in Receive(n, r, heard, restored).msgs
    ensures !m.AppendEntries?
  {
    match r
    case RequestVote(_, _, _, _, _) =>
    case PreVote(_, _, _, _, _) =>
    case AppendEntries(_, _, _, _, _, _, _, _) =>
    case InstallSnapshot(_, _, _, _, _, _) =>
  }

  lemma SentWellMade(n: Node, a: Action, m: Message)
    requires n.Valid() && Sound(a) && m in Act(n, a).msgs
    ensures WellMade(m)
  {
    if m.AppendEntries? {
      ActKeepsOrder(n, a);
      AppendsAreBroadcast(n, a, m);
      BroadcastWellMade(Act(n, a).node, m);
    }
  }

  // ---------- what it leaves on disk ----------

  /** The disk can be read back and has not lost a term, a commit index or a vote. */
  ghost predicate Onward(d: Disk, d': Disk) {
    && Restorable(d')
    && d.hs.term <= d'.hs.term && d.Commit() <= d'.Commit()
    && (d'.hs.term == d.hs.term && d.hs.vote != 0 ==> d'.hs.vote == d.hs.vote)
  }

  lemma MirrorsOnward(n: Node, d: Disk, n': Node, d': Disk)
    requires Mirrors(n, d) && Mirrors(n', d') && Steady(n, n')
    ensures Onward(d, d')
  {
  }

  /** Cut after any number of its records, the entry point leaves such a disk. */
  lemma PrefixOnward(n: Node, d: Disk, a: Action, j: nat)
    requires n.Valid() && Mirrors(n, d) && Sound(a) && j <= |Act(n, a).records|
    ensures Onward(d, ApplyAll(d, Act(n, a).records[..j]))
  {
    var rs := Act(n, a).records;
    if j == 0 {
    } else if j == |rs| {
      assert rs[..j] == rs;
      WalRefinement(n, d, a);
      ActSteady(n, a);
      MirrorsOnward(n, d, Act(n, a).node, ApplyAll(d, rs));
    } else {
      ManyRecords(n, a);
      if a.msg.RequestVote? {
        VoteCutOnward(n, d, a.msg, j);
      } else if a.msg.AppendEntries? {
        AppendCutOnward(n, d, a.msg, j);
      } else {
        InstallCutOnward(n, d, a.msg, a.restored, j);
      }
    }
  }

  /** Only three handlers write more than one record, so only they can be cut in the middle. */
  lemma ManyRecords(n: Node, a: Action)
    requires n.Valid() && |Act(n, a).records| > 1
    ensures a.DoReceive? && (a.msg.RequestVote? || a.msg.AppendEntries? || a.msg.InstallSnapshot?)
  {
    match a
    case DoReceive(m, heard, restored) => FewRecords(n, m, heard, restored);
    case _ =>
  }

  lemma FewRecords(n: Node, m: Message, heard: bool, restored: bool)
    ensures m.RequestVote? || m.AppendEntries? || m.InstallSnapshot? || |Receive(n, m, heard, restored).records| <= 1
  {
    match m
    case RequestVote(_, _, _, _, _) =>
    case RequestVoteResponse(_, _, _, _) =>
    case PreVote(_, _, _, _, _) =>
    case PreVoteResponse(_, _, _, _, _) =>
    case AppendEntries(_, _, _, _, _, _, _, _) =>
    case AppendEntriesResponse(_, _, _, _, _, _) =>
    case InstallSnapshot(_, _, _, _, _, _) =>
    case InstallSnapshotResponse(_, _, _, _, _) =>
  }

  lemma VoteCutOnward(n: Node, d: Disk, m: Message, j: nat)
    requires n.Valid() && Mirrors(n, d) && m.RequestVote? && 0 < j < |HandleRequestVote(n, m).records|
    ensures Onward(d, ApplyAll(d, HandleRequestVote(n, m).records[..j]))
  {
    var moved := BecomeFollower(n, m.term, 0);
    assert HandleRequestVote(n, m).records[..j] == moved.records;
    StepDownMirrors(n, d, m.term, 0);
    MirrorsOnward(n, d, moved.node, ApplyAll(d, moved.records));
  }

  /** Accepting the sender of a request is a step of its own. */
  lemma PreparedOnward(n: Node, d: Disk, from: nat, to: nat, t: nat)
    requires n.Valid() && Mirrors(n, d)
    ensures var r := PrepareForLeaderRpc(n, from, to, t);
            Onward(d, ApplyAll(d, r.records)) && Mirrors(r.node, ApplyAll(d, r.records)) && r.node.Valid()
                && |r.records| <= 1
  {
    var r := PrepareForLeaderRpc(n, from, to, t);
    PrepareMirrors(n, d, from, to, t);
    PreparedKeepsOrder(n, from, to, t);
    MirrorsOnward(n, d, r.node, ApplyAll(d, r.records));
  }

  lemma OnwardTwice(d: Disk, e: Disk, f: Disk)
    requires Onward(d, e) && Onward(e, f)
    ensures Onward(d, f)
  {
  }

  /** The records of two parts, cut in the second. */
  lemma CutAfter(a: seq<Record>, b: seq<Record>, d: Disk, j: nat)
    requires |a| <= j <= |a| + |b|
    ensures ApplyAll(d, (a + b)[..j]) == ApplyAll(ApplyAll(d, a), b[..j - |a|])
  {
    assert (a + b)[..j] == a + b[..j - |a|];
    ApplyAllConcat(d, a, b[..j - |a|]);
  }

  lemma AppendCutOnward(n: Node, d: Disk, m: Message, j: nat)
    requires n.Valid() && Mirrors(n, d) && m.AppendEntries? && Numbered(m)
    requires 0 < j < |HandleAppendEntries(n, m).records|
    ensures Onward(d, ApplyAll(d, HandleAppendEntries(n, m).records[..j]))
  {
    var r := PrepareForLeaderRpc(n, m.from, m.to, m.term);
    var dr, es := ApplyAll(d, r.records), AppendPrepared(r.node, m).records;
    PreparedOnward(n, d, m.from, m.to, m.term);
    CutAfter(r.records, es, d, j);
    MergeCutOnward(r.node, dr, m, j - |r.records|);
    OnwardTwice(d, dr, ApplyAll(dr, es[..j - |r.records|]));
  }

  lemma MergeCutOnward(p: Node, d: Disk, m: Message, x: nat)
    requires p.Valid() && Mirrors(p, d) && m.AppendEntries? && Numbered(m) && x < |AppendPrepared(p, m).records|
    ensures Onward(d, ApplyAll(d, AppendPrepared(p, m).records[..x]))
  {
    var k := FirstNew(p, m.prevIndex, m.entries, 0);
    var es := EntryRecords(m.entries[k..]);
    MergeValid(p, m);
    assert AppendPrepared(p, m).records[..x] == es[..x];
    if x > 0 {
      MergeDisk(p, d, m, k, x);
      MergedRestorable(p, d, m, k, x);
    }
  }

  lemma MergedRestorable(p: Node, d: Disk, m: Message, k: nat, x: nat)
    requires p.Valid() && Mirrors(p, d) && m.AppendEntries? && Numbered(m) && 1 <= x <= |m.entries| - k
    requires p.offset <= m.prevIndex + k <= p.Last() && p.commit <= m.prevIndex + k
    ensures Onward(d, d.(entries := p.log[..m.prevIndex + k - p.offset] + m.entries[k..k + x]))
  {
  }

  lemma InstallCutOnward(n: Node, d: Disk, m: Message, restored: bool, j: nat)
    requires n.Valid() && Mirrors(n, d) && m.InstallSnapshot? && 0 < j < |HandleInstallSnapshot(n, m, restored).records|
    ensures Onward(d, ApplyAll(d, HandleInstallSnapshot(n, m, restored).records[..j]))
  {
    var r := PrepareForLeaderRpc(n, m.from, m.to, m.term);
    var dr, es := ApplyAll(d, r.records), InstallPrepared(r.node, m, restored).records;
    PreparedOnward(n, d, m.from, m.to, m.term);
    CutAfter(r.records, es, d, j);
    if j > |r.records| {
      assert es[..1] == [es[0]];
      ApplyOne(dr, es[0]);
      OnwardTwice(d, dr, ApplyRecord(dr, es[0]));
    }
  }

  // ---------- one step of the cluster ----------

  lemma StepSound(c: State, s: Step)
    requires DurableInv(c) && (s.Complete? || s.CrashDuring?) && Enabled(c, s.id, s.action)
    ensures Sound(s.action) && SlotDurable(c.slots[s.id], s.id)
  {
    assert SlotDurable(c.slots[s.id], s.id);
    if s.action.DoReceive? { assert WellMade(s.action.msg); }
  }

  /** The disk of the node that moves goes onward and its memory follows. */
  lemma MoverDurable(c: State, s: Step, c': State)
    requires DurableInv(c) && Next(c, s, c')
    ensures SlotDurable(c'.slots[s.id], s.id) && Onward(DiskAt(c, s.id), DiskAt(c', s.id))
  {
    var i := s.id;
    assert SlotDurable(c.slots[i], i);
    match s
    case Complete(_, a) =>
      StepSound(c, s);
      var e := Act(NodeAt(c, i), a);
      ApplyAllConcat(EMPTY_DISK, c.slots[i].wal, e.records);
      PrefixOnward(NodeAt(c, i), DiskAt(c, i), a, |e.records|);
      assert e.records[..|e.records|] == e.records;
      WalRefinement(NodeAt(c, i), DiskAt(c, i), a);
      ActSteady(NodeAt(c, i), a);
    case CrashDuring(_, a, j) =>
      StepSound(c, s);
      ApplyAllConcat(EMPTY_DISK, c.slots[i].wal, Act(NodeAt(c, i), a).records[..j]);
      PrefixOnward(NodeAt(c, i), DiskAt(c, i), a, j);
    case Restart(_) => RestoreMirrors(i, DiskAt(c, i));
    case Idle(_) =>
  }

  lemma DurableStep(c: State, s: Step, c': State)
    requires DurableInv(c) && Next(c, s, c')
    ensures DurableInv(c')
    ensures forall i: Id :: Onward(DiskAt(c, i), DiskAt(c', i))
  {
    MoverDurable(c, s, c');
    forall i: Id ensures SlotDurable(c'.slots[i], i) && Onward(DiskAt(c, i), DiskAt(c', i)) {
      if i != s.id { assert SlotDurable(c.slots[i], i); }
    }
    forall m | m in c'.net ensures WellMade(m) {
      if m !in c.net {
        StepSound(c, s);
        SentWellMade(NodeAt(c, s.id), s.action, m);
      }
    }
  }

  // ---------- over whole runs ----------

  lemma {:induction false} RunDurable(states: seq<State>, steps: seq<Step>, k: nat)
    requires Run(states, steps) && k < |states|
    ensures DurableInv(states[k])
    decreases k
  {
    if k == 0 {
      forall i: Id ensures SlotDurable(states[0].slots[i], i) { }
    } else {
      RunDurable(states, steps, k - 1);
      assert Next(states[k - 1], steps[k - 1], states[k - 1 + 1]);
      DurableStep(states[k - 1], steps[k - 1], states[k]);
    }
  }

  /** Recovery never fails: whatever prefix of its records a node wrote before it went down,
      reading them back raises no error; while it is up, they mean exactly its memory. */
  lemma RestartSucceeds(states: seq<State>, steps: seq<Step>, k: nat, i: Id)
    requires Run(states, steps) && k < |states|
    ensures i in states[k].slots && Restorable(DiskAt(states[k], i))
    ensures Up(states[k], i) ==> NodeAt(states[k], i).id == i && NodeAt(states[k], i).Valid()
    ensures Up(states[k], i) ==> Mirrors(NodeAt(states[k], i), DiskAt(states[k], i))
  {
    RunDurable(states, steps, k);
    assert SlotDurable(states[k].slots[i], i);
  }

  /** Across crashes and restarts a node's durable term and commit index never go back, and a
      vote it has given stands for the rest of the term. */
  lemma {:induction false} DurableNeverGoesBack(states: seq<State>, steps: seq<Step>, j: nat, k: nat, i: Id)
    requires Run(states, steps) && j <= k < |states|
    ensures i in states[j].slots && i in states[k].slots
    ensures var d, e := DiskAt(states[j], i), DiskAt(states[k], i);
            && d.hs.term <= e.hs.term && d.Commit() <= e.Commit()
            && (d.hs.term == e.hs.term && d.hs.vote != 0 ==> e.hs.vote == d.hs.vote)
    decreases k
  {
    RunDurable(states, steps, k);
    RunDurable(states, steps, j);
    if j < k {
      DurableNeverGoesBack(states, steps, j, k - 1, i);
      RunDurable(states, steps, k - 1);
      assert Next(states[k - 1], steps[k - 1], states[k - 1 + 1]);
      DurableStep(states[k - 1], steps[k - 1], states[k]);
      assert Onward(DiskAt(states[k - 1], i), DiskAt(states[k], i));
    }
  }

  /** Every AppendEntries ever sent announces a commit index within what it carries. */
  lemma SentCommitIsCarried(states: seq<State>, steps: seq<Step>, k: nat, m: Message)
    requires Run(states, steps) && k < |states| && m in states[k].net && m.AppendEntries?
    ensures m.leaderCommit <= m.prevIndex + |m.entries| && Numbered(m)
  {
    RunDurable(states, steps, k);
    assert WellMade(m);
  }

  /** While a process lives, its snapshot, applied and commit indexes and its term never go back,
      and offset <= applied <= commit <= last index. */
  lemma {:induction false} OrderKept(states: seq<State>, steps: seq<Step>, i: Id, j: nat, k: nat)
    requires Run(states, steps) && j <= k < |states| && Up(states[j], i) && StaysUp(steps, i, j, k)
    ensures Up(states[k], i) && Ordered(NodeAt(states[j], i), NodeAt(states[k], i))
    decreases k
  {
    if j == k {
      RestartSucceeds(states, steps, k, i);
    } else {
      OrderKept(states, steps, i, j, k - 1);
      RunDurable(states, steps, k - 1);
      StepKeepsOrder(states[k - 1], steps[k - 1], states[k - 1 + 1], i);
    }
  }

  lemma StepKeepsOrder(c: State, s: Step, c': State, i: Id)
    requires DurableInv(c) && Next(c, s, c') && Up(c, i) && (s.id == i ==> s.Complete? || s.Idle?)
    ensures Up(c', i) && Ordered(NodeAt(c, i), NodeAt(c', i))
  {
    assert SlotDurable(c.slots[i], i);
    if s.id == i && s.Complete? {
      StepSound(c, s);
      ActKeepsOrder(NodeAt(c, i), s.action);
    }
  }
}
