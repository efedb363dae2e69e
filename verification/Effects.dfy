/** What single entry points can and cannot do to the applied index, to snapshots and to the
    set of log entries in circulation. */
module Effects {
  import opened Proto
  import opened RaftNode
  import opened Replay
  import opened Cluster

  ghost predicate IsInstall(n: Node, a: Action) {
    a.DoReceive? && a.msg.InstallSnapshot? && Installs(n, a.msg, a.restored)
  }

  // ---------- snapshots ----------

  /** The snapshot (index, state) of a record or message is one of those the step may use:
      the node's own, a captured one, or the one being installed. */
  ghost predicate SnapshotFrom(n: Node, a: Action, index: nat, state: Option<Store>) {
    || (index == n.offset && state == n.snapData)
    || (a.DoTakeSnapshot? && index == a.upTo && state == a.state && index <= n.applied)
    || (IsInstall(n, a) && index == a.msg.snapIndex && state == a.msg.snapData)
  }

  ghost predicate RecordFrom(n: Node, a: Action, r: Record) {
    r.SnapshotRecord? ==> SnapshotFrom(n, a, r.snap.index, r.snap.state)
  }

  ghost predicate MessageFrom(n: Node, a: Action, m: Message) {
    m.InstallSnapshot? ==> SnapshotFrom(n, a, m.snapIndex, m.snapData)
  }

  ghost predicate Sourced(n: Node, a: Action, e: Effect) {
    && n.commit <= e.node.commit
    && SnapshotFrom(n, a, e.node.offset, e.node.snapData)
    && (e.node.applied == n.applied || a.DoAdvance? || IsInstall(n, a))
    && (forall k {:trigger RecordFrom(n, a, e.records[k])} :: 0 <= k < |e.records| ==> RecordFrom(n, a, e.records[k]))
    && (forall k {:trigger MessageFrom(n, a, e.msgs[k])} :: 0 <= k < |e.msgs| ==> MessageFrom(n, a, e.msgs[k]))
  }

  /** Nothing about snapshots or the applied index, and commit does not go back. */
  predicate Plain(n: Node, p: Node, rs: seq<Record>) {
    && n.commit <= p.commit && p.offset == n.offset && p.snapData == n.snapData && p.applied == n.applied
    && forall k :: 0 <= k < |rs| ==> !rs[k].SnapshotRecord?
  }

  lemma PreparePlain(n: Node, from: nat, to: nat, t: nat)
    ensures var ready := PrepareForLeaderRpc(n, from, to, t);
            Plain(n, ready.node, ready.records) && ready.node.log == n.log && ready.node.commit == n.commit
  {
  }

  lemma AppendPlain(p: Node, m: Message)
    requires m.AppendEntries? && p.commit <= p.Last()
    ensures var e := AppendPrepared(p, m); Plain(p, e.node, e.records) && |e.msgs| == 1 && !e.msgs[0].InstallSnapshot?
  {
    if LogMatches(p, m.prevIndex, m.prevTerm) {
      var k := FirstNew(p, m.prevIndex, m.entries, 0);
      assert 0 < k ==> !IsNew(p, m.prevIndex, m.entries, k - 1);
      if k < |m.entries| {
        assert Merge(p, m.prevIndex, m.entries, k).Last() == m.prevIndex + |m.entries|;
      }
    }
  }

  lemma InstallSourced(n: Node, a: Action)
    requires n.Valid() && a.DoReceive? && a.msg.InstallSnapshot?
    ensures Sourced(n, a, Act(n, a))
  {
    PreparePlain(n, a.msg.from, a.msg.to, a.msg.term);
  }

  lemma AppendSourced(n: Node, a: Action)
    requires n.Valid() && a.DoReceive? && a.msg.AppendEntries?
    ensures Sourced(n, a, Act(n, a))
  {
    var m, e := a.msg, Act(n, a);
    PreparePlain(n, m.from, m.to, m.term);
    var ready := PrepareForLeaderRpc(n, m.from, m.to, m.term);
    AppendPlain(ready.node, m);
    assert Plain(n, e.node, e.records);
  }

  lemma ResponseSourced(n: Node, a: Action)
    requires n.Valid() && a.DoReceive? && (a.msg.AppendEntriesResponse? || a.msg.InstallSnapshotResponse?)
    ensures Sourced(n, a, Act(n, a))
  {
  }

  lemma VotingSourced(n: Node, a: Action)
    requires n.Valid() && a.DoReceive?
    requires a.msg.RequestVote? || a.msg.RequestVoteResponse? || a.msg.PreVote? || a.msg.PreVoteResponse?
    ensures Sourced(n, a, Act(n, a))
  {
    if a.msg.RequestVoteResponse? { ElectionSourced(n, a); }
    if a.msg.RequestVote? { BallotSourced(n, a); }
  }

  lemma BallotSourced(n: Node, a: Action)
    requires n.Valid() && a.DoReceive? && a.msg.RequestVote?
    ensures Sourced(n, a, Act(n, a))
  {
  }

  lemma ElectionSourced(n: Node, a: Action)
    requires n.Valid() && a.DoReceive? && a.msg.RequestVoteResponse?
    ensures Sourced(n, a, Act(n, a))
  {
  }

  lemma BroadcastSourced(n: Node, p: Node, a: Action)
    requires p.offset == n.offset && p.snapData == n.snapData
    ensures forall k {:trigger MessageFrom(n, a, Broadcast(p)[k])} ::
              0 <= k < |Broadcast(p)| ==> MessageFrom(n, a, Broadcast(p)[k])
  {
  }

  lemma OwnSourced(n: Node, a: Action)
    requires n.Valid() && !a.DoReceive?
    ensures Sourced(n, a, Act(n, a))
  {
    if a.DoReadIndex? && n.role.Leader? && !n.readPending {
      var p := ReadOpens(n);
      BroadcastSourced(n, Act(n, a).node, a);
    } else if a.DoTick? || a.DoPropose? {
      BroadcastSourced(n, Act(n, a).node, a);
    }
  }

  lemma ActSourced(n: Node, a: Action)
    requires n.Valid()
    ensures Sourced(n, a, Act(n, a))
  {
    if !a.DoReceive? {
      OwnSourced(n, a);
    } else {
      match a.msg
      case InstallSnapshot(_, _, _, _, _, _) => InstallSourced(n, a);
      case AppendEntries(_, _, _, _, _, _, _, _) => AppendSourced(n, a);
      case AppendEntriesResponse(_, _, _, _, _, _) => ResponseSourced(n, a);
      case InstallSnapshotResponse(_, _, _, _, _) => ResponseSourced(n, a);
      case RequestVote(_, _, _, _, _) => VotingSourced(n, a);
      case RequestVoteResponse(_, _, _, _) => VotingSourced(n, a);
      case PreVote(_, _, _, _, _) => VotingSourced(n, a);
      case PreVoteResponse(_, _, _, _, _) => VotingSourced(n, a);
    }
  }

  lemma InstallMoves(n: Node, a: Action)
    requires n.Valid() && IsInstall(n, a)
    ensures Act(n, a).node.applied == a.msg.snapIndex
  {
  }

  /** Replaying records leaves the disk's snapshot or one of the records'. */
  lemma {:induction false} ReplayedSnapshot(d: Disk, rs: seq<Record>)
    ensures var s := ApplyAll(d, rs).snap;
            s == d.snap || exists k :: 0 <= k < |rs| && rs[k] == SnapshotRecord(s)
  {
    if |rs| > 0 {
      var front := rs[..|rs| - 1];
      ReplayedSnapshot(d, front);
      var s := ApplyAll(d, rs).snap;
      if !rs[|rs| - 1].SnapshotRecord? && s != d.snap {
        var k :| 0 <= k < |front| && front[k] == SnapshotRecord(s);
        assert rs[k] == SnapshotRecord(s);
      }
    }
  }

  // ---------- log entries ----------

  ghost predicate EntryIn(log: Log, k: int, known: set<Entry>) {
    0 <= k < |log| ==> log[k] in known
  }

  ghost predicate LogWithin(log: Log, known: set<Entry>) {
    forall k {:trigger EntryIn(log, k, known)} :: EntryIn(log, k, known)
  }

  ghost predicate MsgWithin(m: Message, known: set<Entry>) {
    m.AppendEntries? ==> LogWithin(m.entries, known)
  }

  ghost predicate RecordWithin(r: Record, known: set<Entry>) {
    r.EntryRecord? ==> r.entry in known
  }

  /** The entry that the action creates, if it creates one. */
  function Creates(n: Node, a: Action): set<Entry> {
    if a.DoPropose? && n.role.Leader? then {Entry(n.term, n.Last() + 1, a.data)}
    else if a.DoReadIndex? && n.role.Leader? && !n.readPending && !n.CommittedInTerm() then
      {Entry(n.term, n.Last() + 1, None)}
    else {}
  }

  ghost predicate EffectWithin(e: Effect, known: set<Entry>) {
    && LogWithin(e.node.log, known)
    && (forall k {:trigger RecordWithin(e.records[k], known)} ::
          0 <= k < |e.records| ==> RecordWithin(e.records[k], known))
    && (forall k {:trigger MsgWithin(e.msgs[k], known)} :: 0 <= k < |e.msgs| ==> MsgWithin(e.msgs[k], known))
  }

  lemma LogWithinMore(log: Log, known: set<Entry>, more: set<Entry>)
    requires LogWithin(log, known) && known <= more
    ensures LogWithin(log, more)
  {
    forall k ensures EntryIn(log, k, more) { assert EntryIn(log, k, known); }
  }

  lemma MsgWithinMore(m: Message, known: set<Entry>, more: set<Entry>)
    requires MsgWithin(m, known) && known <= more
    ensures MsgWithin(m, more)
  {
    if m.AppendEntries? {
      LogWithinMore(m.entries, known, more);
    }
  }

  lemma MessageForWithin(n: Node, peer: nat, known: set<Entry>)
    requires LogWithin(n.log, known)
    ensures MsgWithin(MessageFor(n, peer), known)
  {
    var m := MessageFor(n, peer);
    if m.AppendEntries? {
      var from := m.prevIndex - n.offset;
      forall k ensures EntryIn(m.entries, k, known) { assert EntryIn(n.log, from + k, known); }
    }
  }

  lemma BroadcastWithin(n: Node, known: set<Entry>)
    requires LogWithin(n.log, known)
    ensures forall k {:trigger Broadcast(n)[k]} :: 0 <= k < |Broadcast(n)| ==> MsgWithin(Broadcast(n)[k], known)
  {
    MessageForWithin(n, Peers(n.id)[0], known);
    MessageForWithin(n, Peers(n.id)[1], known);
  }

  lemma MergeWithin(p: Node, prev: nat, entries: Log, k: nat, known: set<Entry>)
    requires LogWithin(p.log, known) && LogWithin(entries, known) && k <= |entries|
    requires k < |entries| ==> p.offset <= prev + k <= p.Last()
    ensures LogWithin(Merge(p, prev, entries, k).log, known)
  {
    if k < |entries| {
      var kept := prev + k - p.offset;
      var log := Merge(p, prev, entries, k).log;
      forall j ensures EntryIn(log, j, known) {
        assert EntryIn(p.log, j, known) && EntryIn(entries, k + j - kept, known);
      }
    }
  }

  lemma AppendWithin(p: Node, m: Message, known: set<Entry>)
    requires m.AppendEntries? && LogWithin(p.log, known) && LogWithin(m.entries, known)
    ensures EffectWithin(AppendPrepared(p, m), known)
  {
    if LogMatches(p, m.prevIndex, m.prevTerm) {
      var k := FirstNew(p, m.prevIndex, m.entries, 0);
      assert 0 < k ==> !IsNew(p, m.prevIndex, m.entries, k - 1);
      MergeWithin(p, m.prevIndex, m.entries, k, known);
      var e := AppendPrepared(p, m);
      forall x | 0 <= x < |e.records| ensures RecordWithin(e.records[x], known) {
        assert EntryIn(m.entries, k + x, known);
      }
    }
  }

  lemma PrepareWithin(n: Node, from: nat, to: nat, t: nat, known: set<Entry>)
    ensures var ready := PrepareForLeaderRpc(n, from, to, t);
            ready.node.log == n.log && forall k :: 0 <= k < |ready.records| ==> ready.records[k].HardStateRecord?
  {
  }

  lemma FollowWithin(n: Node, a: Action, known: set<Entry>)
    requires n.Valid() && a.DoReceive? && LogWithin(n.log, known) && MsgWithin(a.msg, known)
    requires a.msg.AppendEntries? || a.msg.InstallSnapshot?
    ensures EffectWithin(Act(n, a), known)
  {
    var m := a.msg;
    PrepareWithin(n, m.from, m.to, m.term, known);
    var ready := PrepareForLeaderRpc(n, m.from, m.to, m.term);
    if m.AppendEntries? && ready.ok {
      var done := AppendPrepared(ready.node, m);
      AppendWithin(ready.node, m, known);
      assert Act(n, a).records[|ready.records|..] == done.records;
      ConcatWithin(ready.records, Act(n, a), known);
    }
  }

  lemma VoteWithin(n: Node, a: Action, known: set<Entry>)
    requires n.Valid() && a.DoReceive? && LogWithin(n.log, known)
    requires a.msg.RequestVote? || a.msg.PreVote? || a.msg.PreVoteResponse?
    ensures EffectWithin(Act(n, a), known)
  {
    var e := Act(n, a);
    assert e.node.log == n.log;
    assert forall k :: 0 <= k < |e.records| ==> e.records[k].HardStateRecord?;
    assert forall k :: 0 <= k < |e.msgs| ==> !e.msgs[k].AppendEntries?;
  }

  lemma ReceiveWithin(n: Node, a: Action, known: set<Entry>)
    requires n.Valid() && a.DoReceive? && LogWithin(n.log, known) && MsgWithin(a.msg, known)
    ensures EffectWithin(Act(n, a), known)
  {
    match a.msg
    case AppendEntries(_, _, _, _, _, _, _, _) => FollowWithin(n, a, known);
    case InstallSnapshot(_, _, _, _, _, _) => FollowWithin(n, a, known);
    case RequestVoteResponse(_, _, _, _) => LeaderWithin(n, a, known);
    case AppendEntriesResponse(_, _, _, _, _, _) => LeaderWithin(n, a, known);
    case InstallSnapshotResponse(_, _, _, _, _) => LeaderWithin(n, a, known);
    case RequestVote(_, _, _, _, _) => VoteWithin(n, a, known);
    case PreVote(_, _, _, _, _) => VoteWithin(n, a, known);
    case PreVoteResponse(_, _, _, _, _) => VoteWithin(n, a, known);
  }

  /** Handlers that may broadcast afterwards: they keep the log. */
  lemma LeaderWithin(n: Node, a: Action, known: set<Entry>)
    requires n.Valid() && LogWithin(n.log, known) && a.DoReceive?
    requires a.msg.RequestVoteResponse? || a.msg.AppendEntriesResponse? || a.msg.InstallSnapshotResponse?
    ensures EffectWithin(Act(n, a), known)
  {
    var e := Act(n, a);
    assert e.node.log == n.log;
    BroadcastWithin(e.node, known);
    assert forall k :: 0 <= k < |e.records| ==> e.records[k].HardStateRecord?;
    assert |e.msgs| == 0 || (|e.msgs| == 1 && e.msgs[0].InstallSnapshot?) || e.msgs == Broadcast(e.node);
  }

  lemma ConcatWithin(first: seq<Record>, e: Effect, known: set<Entry>)
    requires forall k :: 0 <= k < |first| ==> first[k].HardStateRecord?
    requires |first| <= |e.records| && forall k :: 0 <= k < |first| ==> e.records[k] == first[k]
    requires EffectWithin(Effect(e.node, e.records[|first|..], e.msgs), known)
    ensures EffectWithin(e, known)
  {
    var second := e.records[|first|..];
    forall k | 0 <= k < |e.records| ensures RecordWithin(e.records[k], known) {
      if k >= |first| { assert RecordWithin(second[k - |first|], known); }
    }
  }

  /** Proposing appends one created entry and broadcasts the longer log. */
  lemma ProposeWithin(n: Node, data: Option<Command>, known: set<Entry>)
    requires LogWithin(n.log, known) && n.role.Leader?
    ensures EffectWithin(Propose(n, data).effect, known + {Entry(n.term, n.Last() + 1, data)})
  {
    var e, all := Propose(n, data).effect, known + {Entry(n.term, n.Last() + 1, data)};
    forall k ensures EntryIn(e.node.log, k, all) { assert EntryIn(n.log, k, known); }
    BroadcastWithin(e.node, all);
  }

  /** Actions that keep the log or drop its front, and send at most a broadcast. */
  lemma TimerWithin(n: Node, a: Action, known: set<Entry>)
    requires n.Valid() && LogWithin(n.log, known)
    requires a.DoTick? || a.DoAdvance? || a.DoTakeSnapshot? || a.DoFinishReadIndex?
    ensures EffectWithin(Act(n, a), known)
  {
    BroadcastWithin(n, known);
    if a.DoTakeSnapshot? && n.offset < a.upTo <= n.applied {
      var log := Act(n, a).node.log;
      forall k ensures EntryIn(log, k, known) { assert EntryIn(n.log, a.upTo - n.offset + k, known); }
    }
  }

  /** The node that a read leaves before it broadcasts or proposes. */
  lemma ReadOpens(n: Node) returns (p: Node)
    requires n.role.Leader? && !n.readPending
    ensures p.log == n.log && p.offset == n.offset && p.term == n.term && p.role == n.role
    ensures p.applied == n.applied && p.commit == n.commit && p.snapData == n.snapData
    ensures ReadIndex(n).effect ==
            if n.CommittedInTerm() then Effect(p, [], Broadcast(p)) else Propose(p, None).effect
  {
    p := Opened(n);
    OpenedShape(n);
  }

  lemma QuorumReadWithin(n: Node, known: set<Entry>)
    requires LogWithin(n.log, known) && n.role.Leader? && !n.readPending && n.CommittedInTerm()
    ensures EffectWithin(ReadIndex(n).effect, known)
  {
    var p := ReadOpens(n);
    BroadcastWithin(p, known);
  }

  lemma NoOpReadWithin(n: Node, known: set<Entry>)
    requires LogWithin(n.log, known) && n.role.Leader? && !n.readPending && !n.CommittedInTerm()
    ensures EffectWithin(ReadIndex(n).effect, known + {Entry(n.term, n.Last() + 1, None)})
  {
    var p := ReadOpens(n);
    ProposeWithin(p, None, known);
  }

  lemma ReadWithin(n: Node, known: set<Entry>)
    requires LogWithin(n.log, known)
    ensures EffectWithin(ReadIndex(n).effect, known + Creates(n, DoReadIndex))
  {
    if !n.role.Leader? || n.readPending {
      assert known + {} == known;
    } else if n.CommittedInTerm() {
      QuorumReadWithin(n, known);
      assert known + {} == known;
    } else {
      NoOpReadWithin(n, known);
    }
  }

  lemma ProposalWithin(n: Node, data: Option<Command>, known: set<Entry>)
    requires LogWithin(n.log, known)
    ensures EffectWithin(Propose(n, data).effect, known + Creates(n, DoPropose(data)))
  {
    if n.role.Leader? {
      ProposeWithin(n, data, known);
    } else {
      assert known + {} == known;
    }
  }

  lemma ActWithin(n: Node, a: Action, known: set<Entry>)
    requires n.Valid() && LogWithin(n.log, known) && (a.DoReceive? ==> MsgWithin(a.msg, known))
    ensures EffectWithin(Act(n, a), known + Creates(n, a))
  {
    if a.DoPropose? {
      ProposalWithin(n, a.data, known);
    } else if a.DoReadIndex? {
      ReadWithin(n, known);
    } else {
      assert Creates(n, a) == {} && known + {} == known;
      if a.DoReceive? {
        ReceiveWithin(n, a, known);
      } else {
        TimerWithin(n, a, known);
      }
    }
  }
}
