/** Replication, commitment and compaction keep the cluster invariant, completed or cut short
    by a crash. */
module Replication {
  import opened Proto
  import opened Consensus
  import opened ConsensusSteps
  import opened RaftNode
  import opened Replay
  import opened Cluster
  import opened Invariant
  import opened Elections

  // ---------- the follower's merge ----------

  /** A follower `p` that accepted request `m`, in the world of the sender's term. */
  ghost predicate Receiving(w: World, i: Id, p: Node, d: Disk, m: Message) {
    && Local(w, i, p, d) && p.role.Follower?
    && m.AppendEntries? && MsgOk(w.h, m) && m.term == p.term
    && LogMatches(p, m.prevIndex, m.prevTerm)
  }

  ghost function LeadLog(w: World, t: nat): Log {
    if t in w.h.leaders then w.h.leaders[t].log else []
  }

  lemma AgreeBelow(a: Log, b: Log, j: nat, k: nat)
    requires j <= k
    ensures Agree(a, b, k) ==> Agree(a, b, j)
  {
  }

  /** The committed part of a member's log is in the log of its term's leader. */
  lemma CommittedShared(w: World, i: Id, p: Node, d: Disk)
    requires Local(w, i, p, d) && p.term in w.h.leaders
    ensures p.commit <= |w.nodes[i].log| && Agree(w.nodes[i].log, LeadLog(w, p.term), p.commit)
  {
    assert NodeInv(w.h, w.nodes[i], i);
    SettledInLeader(w, w.nodes[i].log, p.commit, p.term, p.term);
  }

  /** A term comparison that succeeds extends the shared prefix to that index. */
  lemma SameTermShared(w: World, i: Id, p: Node, d: Disk, t: nat, index: nat)
    requires Local(w, i, p, d) && t in w.h.leaders
    requires p.offset <= index <= p.Last() && index <= |LeadLog(w, t)|
    requires p.TermAt(index) == TermIn(LeadLog(w, t), index)
    ensures Agree(w.nodes[i].log, LeadLog(w, t), index)
  {
    if index > 0 {
      assert NodeInv(w.h, w.nodes[i], i) && LeaderOk(w.h, t);
      NodeLog(w.h, p, d);
      NodeTermAt(w.h, p, d, index);
      LogMatching(w.h, w.nodes[i].log, LeadLog(w, t), index - 1);
    }
  }

  /** A term comparison that fails ends it. */
  lemma OtherTermNotShared(w: World, i: Id, p: Node, d: Disk, t: nat, index: nat)
    requires Local(w, i, p, d) && t in w.h.leaders
    requires p.offset < index <= |LeadLog(w, t)|
    requires index > p.Last() || p.TermAt(index) != TermIn(LeadLog(w, t), index)
    ensures !Agree(w.nodes[i].log, LeadLog(w, t), index)
  {
    NodeLog(w.h, p, d);
    if index <= p.Last() { NodeTermAt(w.h, p, d, index); }
  }

  lemma NotNewShared(w: World, i: Id, p: Node, d: Disk, m: Message, j: nat)
    requires Receiving(w, i, p, d, m) && j < |m.entries| && !IsNew(p, m.prevIndex, m.entries, j)
    ensures Agree(w.nodes[i].log, LeadLog(w, m.term), m.prevIndex + j + 1)
  {
    var index := m.prevIndex + j + 1;
    if index <= p.offset {
      CommittedShared(w, i, p, d);
      AgreeBelow(w.nodes[i].log, LeadLog(w, m.term), index, p.commit);
    } else {
      SameTermShared(w, i, p, d, m.term, index);
    }
  }

  lemma NewNotShared(w: World, i: Id, p: Node, d: Disk, m: Message, j: nat)
    requires Receiving(w, i, p, d, m) && j < |m.entries| && IsNew(p, m.prevIndex, m.entries, j)
    ensures !Agree(w.nodes[i].log, LeadLog(w, m.term), m.prevIndex + j + 1)
    ensures p.offset <= m.prevIndex + j && p.commit <= m.prevIndex + j
  {
    OtherTermNotShared(w, i, p, d, m.term, m.prevIndex + j + 1);
    CommittedShared(w, i, p, d);
    var shorter := Min(m.prevIndex + j + 1, p.commit);
    AgreeBelow(w.nodes[i].log, LeadLog(w, m.term), shorter, p.commit);
  }

  /** Position `k` of the request is where the follower's log stops agreeing with the leader's. */
  ghost predicate Diverges(w: World, i: Id, p: Node, m: Message, k: nat)
    requires m.AppendEntries? && i in w.nodes
  {
    && k < |m.entries|
    && p.offset <= m.prevIndex + k <= p.Last() && p.commit <= m.prevIndex + k
    && Agree(w.nodes[i].log, LeadLog(w, m.term), m.prevIndex + k)
    && !Agree(w.nodes[i].log, LeadLog(w, m.term), m.prevIndex + k + 1)
  }

  ghost predicate Positioned(w: World, i: Id, p: Node, m: Message, k: nat)
    requires m.AppendEntries? && i in w.nodes
  {
    && k <= |m.entries|
    && Agree(w.nodes[i].log, LeadLog(w, m.term), m.prevIndex + k)
    && (k < |m.entries| ==> Diverges(w, i, p, m, k))
  }

  /** The consistency check and the term comparisons find exactly the shared prefix; in
      particular no conflict is ever found at or below the commit index. */
  lemma SharedPrefix(w: World, i: Id, p: Node, d: Disk, m: Message)
    requires Receiving(w, i, p, d, m)
    ensures Positioned(w, i, p, m, FirstNew(p, m.prevIndex, m.entries, 0))
  {
    var k := FirstNew(p, m.prevIndex, m.entries, 0);
    NodeLog(w.h, p, d);
    if k > 0 {
      NotNewShared(w, i, p, d, m, k - 1);
    } else if m.prevIndex > 0 {
      SameTermShared(w, i, p, d, m.term, m.prevIndex);
    }
    if k < |m.entries| { NewNotShared(w, i, p, d, m, k); }
  }

  lemma NumberedWhenOk(w: World, m: Message)
    requires Inv(w) && m.AppendEntries? && MsgOk(w.h, m)
    ensures Numbered(m)
  {
    assert LeaderOk(w.h, m.term);
  }

  lemma SliceSlice(lead: Log, prev: nat, entries: Log, k: nat, x: nat)
    requires SliceOk(lead, prev, entries) && k + x <= |entries|
    ensures entries[k..k + x] == lead[prev + k..prev + k + x]
  {
  }

  /** Replacing everything after a shared prefix by the leader's next entries. */
  lemma OverwriteReaches(w: World, i: Id, d: Disk, t: nat, from: nat, d': Disk, upTo: nat)
    requires Durable(w, i, d) && t == d.hs.term && t in w.h.leaders
    requires d.snap.index <= from <= |w.nodes[i].log| && d.Commit() <= from <= upTo <= |LeadLog(w, t)|
    requires Agree(w.nodes[i].log, LeadLog(w, t), from) && !Agree(w.nodes[i].log, LeadLog(w, t), upTo + 1)
    requires d' == d.(entries := d.entries[..from - d.snap.index] + LeadLog(w, t)[from..upTo])
    ensures Reaches(w, i, w.h, d')
    ensures StableOf(w.h, d') == w.nodes[i].(log := LeadLog(w, t)[..upTo])
  {
    var lead := LeadLog(w, t);
    assert Full(w.h.chosen, d') == w.nodes[i].log[..from] + lead[from..upTo];
    assert Full(w.h.chosen, d') == lead[..upTo];
    assert LeaderOk(w.h, t);
    Overwrite(w, i, upTo);
    SameHistory(w.h, i);
    assert d'.Contiguous();
  }

  /** The same, with the first difference right after the shared prefix. */
  lemma OverwriteOnward(w: World, i: Id, d: Disk, t: nat, from: nat, d': Disk, upTo: nat)
    requires Durable(w, i, d) && t == d.hs.term && t in w.h.leaders
    requires d.snap.index <= from <= |w.nodes[i].log| && d.Commit() <= from < upTo <= |LeadLog(w, t)|
    requires Agree(w.nodes[i].log, LeadLog(w, t), from) && !Agree(w.nodes[i].log, LeadLog(w, t), from + 1)
    requires d' == d.(entries := d.entries[..from - d.snap.index] + LeadLog(w, t)[from..upTo])
    ensures Reaches(w, i, w.h, d')
    ensures StableOf(w.h, d') == w.nodes[i].(log := LeadLog(w, t)[..upTo])
  {
    AgreeBelow(w.nodes[i].log, LeadLog(w, t), from + 1, upTo + 1);
    OverwriteReaches(w, i, d, t, from, d', upTo);
  }

  lemma MergeBounds(w: World, i: Id, p: Node, d: Disk, m: Message, k: nat, x: nat)
    requires Local(w, i, p, d) && m.AppendEntries? && MsgOk(w.h, m) && m.term == p.term
    requires Diverges(w, i, p, m, k) && 1 <= x <= |m.entries| - k
    ensures m.term == d.hs.term && m.term in w.h.leaders && SliceOk(LeadLog(w, m.term), m.prevIndex, m.entries)
    ensures var from := m.prevIndex + k;
            d.snap.index <= from <= |w.nodes[i].log| && d.Commit() <= from < from + x <= |LeadLog(w, m.term)|
  {
    NodeLog(w.h, p, d);
  }

  /** The disk after the first `x` new entries: the leader's log up to the last of them. */
  lemma MergeReaches(w: World, i: Id, p: Node, d: Disk, m: Message, k: nat, x: nat)
    requires Local(w, i, p, d) && m.AppendEntries? && MsgOk(w.h, m) && m.term == p.term
    requires Diverges(w, i, p, m, k) && 1 <= x <= |m.entries| - k
    ensures var d' := ApplyAll(d, EntryRecords(m.entries[k..])[..x]);
            && Reaches(w, i, w.h, d')
            && StableOf(w.h, d') == w.nodes[i].(log := LeadLog(w, m.term)[..m.prevIndex + k + x])
  {
    NumberedWhenOk(w, m);
    MergeBounds(w, i, p, d, m, k, x);
    MergeShape(p, d, m, LeadLog(w, m.term), k, x);
    MergeOverwrites(w, i, d, m, k, x, ApplyAll(d, EntryRecords(m.entries[k..])[..x]));
  }

  lemma MergeOverwrites(w: World, i: Id, d: Disk, m: Message, k: nat, x: nat, d': Disk)
    requires Durable(w, i, d) && m.AppendEntries? && m.term == d.hs.term && m.term in w.h.leaders && x > 0
    requires d.snap.index <= m.prevIndex + k <= |w.nodes[i].log| && d.Commit() <= m.prevIndex + k
    requires m.prevIndex + k + x <= |LeadLog(w, m.term)|
    requires Agree(w.nodes[i].log, LeadLog(w, m.term), m.prevIndex + k)
    requires !Agree(w.nodes[i].log, LeadLog(w, m.term), m.prevIndex + k + 1)
    requires d' == d.(entries := d.entries[..m.prevIndex + k - d.snap.index] +
                                 LeadLog(w, m.term)[m.prevIndex + k..m.prevIndex + k + x])
    ensures Reaches(w, i, w.h, d')
    ensures StableOf(w.h, d') == w.nodes[i].(log := LeadLog(w, m.term)[..m.prevIndex + k + x])
  {
    OverwriteOnward(w, i, d, m.term, m.prevIndex + k, d', m.prevIndex + k + x);
  }

  lemma MergeShape(p: Node, d: Disk, m: Message, lead: Log, k: nat, x: nat)
    requires Mirrors(p, d) && p.Valid() && m.AppendEntries? && Numbered(m) && SliceOk(lead, m.prevIndex, m.entries)
    requires p.offset <= m.prevIndex + k <= p.Last() && 1 <= x <= |m.entries| - k
    ensures ApplyAll(d, EntryRecords(m.entries[k..])[..x]) ==
            d.(entries := d.entries[..m.prevIndex + k - d.snap.index] + lead[m.prevIndex + k..m.prevIndex + k + x])
  {
    MergeDisk(p, d, m, k, x);
    SliceSlice(lead, m.prevIndex, m.entries, k, x);
  }

  /** After the merge the node holds the leader's log through the last entry sent. */
  lemma MergedLocal(w: World, i: Id, p: Node, d: Disk, m: Message, k: nat)
    requires Local(w, i, p, d) && p.role.Follower? && m.AppendEntries? && MsgOk(w.h, m) && m.term == p.term
    requires Positioned(w, i, p, m, k)
    ensures var d' := ApplyAll(d, EntryRecords(m.entries[k..]));
            && Reaches(w, i, w.h, d')
            && MemOk(w.h, Merge(p, m.prevIndex, m.entries, k), d', i)
            && Agree(StableOf(w.h, d').log, LeadLog(w, m.term), m.prevIndex + |m.entries|)
  {
    NumberedWhenOk(w, m);
    MergeMirrors(p, d, m, k);
    if k < |m.entries| {
      var x := |m.entries| - k;
      MergeReaches(w, i, p, d, m, k, x);
      assert EntryRecords(m.entries[k..])[..x] == EntryRecords(m.entries[k..]);
    } else {
      assert EntryRecords(m.entries[k..]) == [];
      ReachesSame(w, i, d, d);
    }
  }

  // ---------- learning the commit index ----------

  lemma LearnReaches(w: World, i: Id, q: Node, d: Disk, c: nat)
    requires Durable(w, i, d) && Mirrors(q, d) && q.Valid() && q.commit <= c <= q.Last()
    requires Settled(w.h, w.nodes[i].log, c, q.term)
    requires 0 < q.term
    ensures var r := q.(commit := c);
            && Reaches(w, i, w.h, ApplyAll(d, SaveHardState(r)))
            && Mirrors(r, ApplyAll(d, SaveHardState(r)))
            && StableOf(w.h, ApplyAll(d, SaveHardState(r))).log == w.nodes[i].log
  {
    var r := q.(commit := c);
    ReplayHardState(d, r);
    NodeLog(w.h, q, d);
    Learn(w, i, c);
    SameHistory(w.h, i);
    assert StableOf(w.h, ApplyAll(d, SaveHardState(r))) == w.nodes[i].(commit := c);
  }

  /** The follower's commit rule: the sender's commit index is within what it sent, so
      `min(leader_commit, last_log_index)` is the sender's commit index, and the entries it
      commits are the sender's. */
  lemma FollowerCommitRule(w: World, i: Id, p: Node, d: Disk, m: Message, k: nat)
    requires Local(w, i, p, d) && p.role.Follower? && m.AppendEntries? && MsgOk(w.h, m) && m.term == p.term
    requires Positioned(w, i, p, m, k)
    ensures var q := Merge(p, m.prevIndex, m.entries, k);
            && Min(m.leaderCommit, q.Last()) == m.leaderCommit
            && Settled(w.h, StableOf(w.h, ApplyAll(d, EntryRecords(m.entries[k..]))).log, m.leaderCommit, m.term)
  {
    MergedLocal(w, i, p, d, m, k);
    var q := Merge(p, m.prevIndex, m.entries, k);
    var d' := ApplyAll(d, EntryRecords(m.entries[k..]));
    NodeLog(w.h, q, d');
    SettledShrinks(w.h, LeadLog(w, m.term), StableOf(w.h, d').log, m.leaderCommit, m.leaderCommit, m.term);
  }

  /** Recording the sender's commit index after the merge. */
  lemma CommitReaches(w: World, i: Id, q: Node, d: Disk, m: Message, xs: seq<Record>)
    requires Inv(w) && m.AppendEntries? && m.term in w.h.leaders && q.term == m.term && q.role.Follower?
    requires Reaches(w, i, w.h, ApplyAll(d, xs)) && MemOk(w.h, q, ApplyAll(d, xs), i)
    requires q.commit < m.leaderCommit <= q.Last()
    requires Settled(w.h, StableOf(w.h, ApplyAll(d, xs)).log, m.leaderCommit, m.term)
    ensures var r := q.(commit := m.leaderCommit);
            var d' := ApplyAll(d, xs + SaveHardState(r));
            && Reaches(w, i, w.h, d') && MemOk(w.h, r, d', i)
            && StableOf(w.h, d').log == StableOf(w.h, ApplyAll(d, xs)).log
  {
    var r, dq := q.(commit := m.leaderCommit), ApplyAll(d, xs);
    assert LeaderOk(w.h, m.term);
    LearnReaches(Moved(w, i, w.h, dq), i, q, dq, m.leaderCommit);
    ApplyAllConcat(d, xs, SaveHardState(r));
    ReachesTrans(w, i, w.h, dq, w.h, ApplyAll(dq, SaveHardState(r)));
  }

  /** What the follower body computes once the merge position is known. */
  lemma AppendShape(p: Node, m: Message, k: nat)
    requires m.AppendEntries? && LogMatches(p, m.prevIndex, m.prevTerm)
    requires k == FirstNew(p, m.prevIndex, m.entries, 0)
    requires k < |m.entries| ==> p.offset <= m.prevIndex + k <= p.Last() && p.commit <= m.prevIndex + k
    requires m.leaderCommit <= Merge(p, m.prevIndex, m.entries, k).Last()
    ensures var q := Merge(p, m.prevIndex, m.entries, k);
            var r := if m.leaderCommit > q.commit then q.(commit := m.leaderCommit) else q;
            AppendPrepared(p, m) == Effect(r,
              EntryRecords(m.entries[k..]) + (if m.leaderCommit > q.commit then SaveHardState(r) else []),
              [AppendEntriesResponse(p.id, m.from, p.term, true, m.prevIndex + |m.entries|, m.context)])
  {
  }

  /** Durable effect of the whole follower body, before acknowledging. */
  lemma AppendReaches(w: World, i: Id, p: Node, d: Disk, m: Message, k: nat)
    requires Local(w, i, p, d) && p.role.Follower? && m.AppendEntries? && MsgOk(w.h, m) && m.term == p.term
    requires Positioned(w, i, p, m, k)
    ensures var q := Merge(p, m.prevIndex, m.entries, k);
            var r := if m.leaderCommit > q.commit then q.(commit := m.leaderCommit) else q;
            var rs := EntryRecords(m.entries[k..]) + if m.leaderCommit > q.commit then SaveHardState(r) else [];
            var d' := ApplyAll(d, rs);
            && Reaches(w, i, w.h, d') && MemOk(w.h, r, d', i)
            && Agree(StableOf(w.h, d').log, LeadLog(w, m.term), m.prevIndex + |m.entries|)
  {
    MergedLocal(w, i, p, d, m, k);
    FollowerCommitRule(w, i, p, d, m, k);
    var q := Merge(p, m.prevIndex, m.entries, k);
    var xs := EntryRecords(m.entries[k..]);
    if m.leaderCommit > q.commit {
      CommitReaches(w, i, q, d, m, xs);
    } else {
      assert xs + [] == xs;
    }
  }

  /** Reporting a shared prefix to the leader of the current term. */
  lemma AckReaches(w: World, i: Id, n: Node, d: Disk, k: nat) returns (g: History)
    requires Local(w, i, n, d) && n.term in w.h.leaders && !n.role.Candidate?
    requires Agree(w.nodes[i].log, LeadLog(w, n.term), k)
    ensures g == w.h.(acks := w.h.acks[(i, n.term) := Max(k, AckOf(w.h, i, n.term))])
    ensures Reaches(w, i, g, d) && MemOk(g, n, d, i) && k <= AckOf(g, i, n.term)
  {
    g := Ack(w, i, k);
    assert GrowsBy(w.h, g, i);
    FullGrows(w.h, g, d);
    assert w.nodes[i := StableOf(g, d)] == w.nodes;
    if n.role.Leader? { LeaderMemMoves(w.h, g, n, n, Full(g.chosen, d), Full(g.chosen, d)); }
  }

  lemma AckCompletes(w: World, i: Id, d: Disk, m: Message, e: Effect) returns (g: History)
    requires Inv(w) && m.AppendEntries? && m.term in w.h.leaders
    requires Reaches(w, i, w.h, ApplyAll(d, e.records)) && MemOk(w.h, e.node, ApplyAll(d, e.records), i)
    requires Agree(StableOf(w.h, ApplyAll(d, e.records)).log, LeadLog(w, m.term), m.prevIndex + |m.entries|)
    requires e.node.term == m.term && !e.node.role.Candidate?
    requires e.msgs == [AppendEntriesResponse(i, m.from, m.term, true, m.prevIndex + |m.entries|, m.context)]
    ensures Completes(w, i, g, d, e)
  {
    var d' := ApplyAll(d, e.records);
    g := AckReaches(Moved(w, i, w.h, d'), i, e.node, d', m.prevIndex + |m.entries|);
    ReachesTrans(w, i, w.h, d', g, d');
  }

  lemma AppendPreparedCompletes(w: World, i: Id, p: Node, d: Disk, m: Message) returns (g: History)
    requires Local(w, i, p, d) && p.role.Follower?
    requires m.AppendEntries? && MsgOk(w.h, m) && m.term == p.term
    ensures Completes(w, i, g, d, AppendPrepared(p, m))
  {
    g := w.h;
    ReachesSame(w, i, d, d);
    if LogMatches(p, m.prevIndex, m.prevTerm) {
      var k := FirstNew(p, m.prevIndex, m.entries, 0);
      SharedPrefix(w, i, p, d, m);
      FollowerCommitRule(w, i, p, d, m, k);
      AppendShape(p, m, k);
      AppendReaches(w, i, p, d, m, k);
      g := AckCompletes(w, i, d, m, AppendPrepared(p, m));
    }
  }

  lemma AppendCompletes(w: World, i: Id, n: Node, d: Disk, m: Message) returns (g: History)
    requires Local(w, i, n, d) && m.AppendEntries? && MsgOk(w.h, m)
    ensures Completes(w, i, g, d, HandleAppendEntries(n, m))
  {
    PrepareLocal(w, i, n, d, m.from, m.to, m.term);
    var r := PrepareForLeaderRpc(n, m.from, m.to, m.term);
    var dr := ApplyAll(d, r.records);
    g := w.h;
    if r.ok {
      g := AppendPreparedCompletes(Moved(w, i, w.h, dr), i, r.node, dr, m);
      var e := AppendPrepared(r.node, m);
      ApplyAllConcat(d, r.records, e.records);
      ReachesTrans(w, i, w.h, dr, g, ApplyAll(dr, e.records));
    }
  }

  lemma AppendPreparedCrash(w: World, i: Id, p: Node, d: Disk, m: Message, j: nat)
    requires Local(w, i, p, d) && p.role.Follower?
    requires m.AppendEntries? && MsgOk(w.h, m) && m.term == p.term
    requires j < |AppendPrepared(p, m).records|
    ensures Reaches(w, i, w.h, ApplyAll(d, AppendPrepared(p, m).records[..j]))
  {
    var rs := AppendPrepared(p, m).records;
    var k := FirstNew(p, m.prevIndex, m.entries, 0);
    var xs := EntryRecords(m.entries[k..]);
    SharedPrefix(w, i, p, d, m);
    assert rs[..j] == xs[..j];
    if j == 0 {
      ReachesSame(w, i, d, d);
    } else {
      MergeReaches(w, i, p, d, m, k, j);
    }
  }

  lemma AppendCrash(w: World, i: Id, n: Node, d: Disk, m: Message, j: nat) returns (g: History)
    requires Local(w, i, n, d) && m.AppendEntries? && MsgOk(w.h, m)
    requires j <= |HandleAppendEntries(n, m).records|
    ensures Reaches(w, i, g, ApplyAll(d, HandleAppendEntries(n, m).records[..j]))
  {
    var rs := HandleAppendEntries(n, m).records;
    if j == |rs| {
      g := AppendCompletes(w, i, n, d, m);
      assert rs[..j] == rs;
    } else {
      g := w.h;
      AppendCrashEarly(w, i, n, d, m, rs, j);
    }
  }

  lemma AppendCrashEarly(w: World, i: Id, n: Node, d: Disk, m: Message, rs: seq<Record>, j: nat)
    requires Local(w, i, n, d) && m.AppendEntries? && MsgOk(w.h, m) && j < |rs|
    requires var r := PrepareForLeaderRpc(n, m.from, m.to, m.term);
             && |r.records| <= 1
             && rs == r.records + if r.ok then AppendPrepared(r.node, m).records else []
    ensures Reaches(w, i, w.h, ApplyAll(d, rs[..j]))
  {
    var r := PrepareForLeaderRpc(n, m.from, m.to, m.term);
    if j < |r.records| {
      assert rs[..j] == [];
      ReachesSame(w, i, d, d);
    } else {
      CutBehind(r.records, AppendPrepared(r.node, m).records, j);
      AppendCrashLate(w, i, n, d, m, j - |r.records|);
    }
  }

  lemma CutBehind(a: seq<Record>, b: seq<Record>, j: nat)
    requires |a| <= j <= |a| + |b|
    ensures (a + b)[..j] == a + b[..j - |a|]
  {
  }

  /** A crash after the sender was accepted and some of the new records were written. */
  lemma AppendCrashLate(w: World, i: Id, n: Node, d: Disk, m: Message, j: nat)
    requires Local(w, i, n, d) && m.AppendEntries? && MsgOk(w.h, m)
    requires var r := PrepareForLeaderRpc(n, m.from, m.to, m.term); r.ok && j < |AppendPrepared(r.node, m).records|
    ensures var r := PrepareForLeaderRpc(n, m.from, m.to, m.term);
            Reaches(w, i, w.h, ApplyAll(d, r.records + AppendPrepared(r.node, m).records[..j]))
  {
    var r := PrepareForLeaderRpc(n, m.from, m.to, m.term);
    var dr, es := ApplyAll(d, r.records), AppendPrepared(r.node, m).records;
    PrepareLocal(w, i, n, d, m.from, m.to, m.term);
    AppendPreparedCrash(Moved(w, i, w.h, dr), i, r.node, dr, m, j);
    ApplyAllConcat(d, r.records, es[..j]);
    ReachesTrans(w, i, w.h, dr, w.h, ApplyAll(dr, es[..j]));
  }

  // ---------- the leader's commit scan ----------

  /** A response moves one follower's progress; the new values are still truthful. */
  lemma ProgressLocal(w: World, i: Id, n: Node, d: Disk, from: nat, match_: nat, next: nat, acks: set<nat>)
    requires Local(w, i, n, d) && n.role.Leader? && IsMember(from) && from != i
    requires match_ <= AckOf(w.h, from, n.term)
    requires 1 <= next <= n.Last() + 1 || next == match_ + 1
    ensures Local(w, i, n.(progress := n.progress[from := Progress(match_, next)], readAcks := acks), d)
  {
    var p := n.(progress := n.progress[from := Progress(match_, next)], readAcks := acks);
    AckWithinLog(w, i, n, d, from);
    forall k: nat ensures CommitKnown(w.h, p, k) { assert CommitKnown(w.h, n, k); }
    forall q | q in p.progress ensures ProgressOk(w.h, p, q) {
      if q != from { assert ProgressOk(w.h, n, q); }
    }
  }

  /** No acknowledgement of the current term exceeds the leader's log. */
  lemma AckWithinLog(w: World, i: Id, n: Node, d: Disk, from: nat)
    requires Local(w, i, n, d) && n.role.Leader? && IsMember(from)
    ensures AckOf(w.h, from, n.term) <= n.Last()
  {
    NodeLog(w.h, n, d);
    assert NodeInv(w.h, w.nodes[from], from);
    assert (from, n.term) in w.h.acks ==> AckOk(w.h, w.nodes[from], from, n.term);
  }

  /** What the scan commits, a quorum holds: the leader itself and the follower it counted. */
  lemma ScanQuorum(w: World, i: Id, n: Node, d: Disk, c: nat) returns (g: History)
    requires Local(w, i, n, d) && n.role.Leader? && Committable(n, c)
    ensures GrowsBy(w.h, g, i) && g.commits == w.h.commits && g.chosen == w.h.chosen
    ensures Local(World(w.nodes, g), i, n, d)
    ensures c <= |g.leaders[n.term].log| && g.leaders[n.term].log[c - 1].term == n.term && Quorate(g, n.term, c)
  {
    var q :| q in n.progress && n.progress[q].match_ >= c;
    assert ProgressOk(w.h, n, q);
    NodeLog(w.h, n, d);
    NodeTermAt(w.h, n, d, c);
    g := AckReaches(w, i, n, d, n.Last());
    assert Moved(w, i, g, d) == World(w.nodes, g) by {
      assert w.nodes[i := StableOf(g, d)] == w.nodes;
    }
    assert AckOf(g, i, n.term) >= c && AckOf(g, q, n.term) >= c;
  }

  lemma ScanCommits(w: World, i: Id, n: Node, d: Disk, c: nat) returns (g: History)
    requires Local(w, i, n, d) && n.role.Leader? && n.commit < c
    requires c <= |w.h.leaders[n.term].log| && w.h.leaders[n.term].log[c - 1].term == n.term && Quorate(w.h, n.term, c)
    ensures GrowsBy(w.h, g, i) && Durable(World(w.nodes, g), i, d)
    ensures LeaderMem(g, n.(commit := c), Full(g.chosen, d)) && (n.term, c) in g.commits
    ensures g.chosen == w.h.chosen || |g.chosen| == c
  {
    g := Commit(w, n.term, c);
    assert GrowsBy(w.h, g, i);
    FullGrows(w.h, g, d);
    var q := n.(commit := c);
    assert LeaderGrows(w.h, g, n.term);
    forall k: nat ensures CommitKnown(g, q, k) { assert CommitKnown(w.h, n, k); }
    forall p | p in q.progress ensures ProgressOk(g, q, p) { assert ProgressOk(w.h, n, p); }
  }

  lemma ScanCompletes(w: World, i: Id, n: Node, d: Disk, c: nat) returns (g: History)
    requires Local(w, i, n, d) && n.role.Leader? && Committable(n, c)
    ensures var q := n.(commit := c);
            Completes(w, i, g, d, Effect(q, SaveHardState(q), []))
  {
    var g1 := ScanQuorum(w, i, n, d, c);
    g := ScanCommits(World(w.nodes, g1), i, n, d, c);
    GrowsByTrans(w.h, g1, g, i);
    var w1 := World(w.nodes, g);
    NodeLog(g, n, d);
    assert LeaderOk(g, n.term);
    assert SettledBy(g, w1.nodes[i].log, c, n.term, c);
    LearnReaches(w1, i, n, d, c);
    var q := n.(commit := c);
    ReachesVia(w, i, g, ApplyAll(d, SaveHardState(q)));
  }

  lemma ReachesVia(w: World, i: Id, g: History, d: Disk)
    requires i in w.nodes && GrowsBy(w.h, g, i) && Reaches(World(w.nodes, g), i, g, d)
    requires ChosenBy(w.h, g, StableOf(g, d))
    ensures Reaches(w, i, g, d)
  {
  }

  lemma ResponseCompletes(w: World, i: Id, n: Node, d: Disk, m: Message) returns (g: History)
    requires Local(w, i, n, d) && m.AppendEntriesResponse? && MsgOk(w.h, m)
    ensures Completes(w, i, g, d, HandleAppendEntriesResponse(n, m))
  {
    g := w.h;
    ReachesSame(w, i, d, d);
    if n.Accepts(m.from, m.to) {
      if m.term > n.term {
        StepDownCompletes(w, i, n, d, m.term, 0);
      } else if n.role.Leader? && m.term == n.term {
        if m.success {
          g := SuccessCompletes(w, i, n, d, m);
        } else {
          FailureCompletes(w, i, n, d, m);
        }
      }
    }
  }

  lemma SuccessCompletes(w: World, i: Id, n: Node, d: Disk, m: Message) returns (g: History)
    requires Local(w, i, n, d) && m.AppendEntriesResponse? && MsgOk(w.h, m)
    requires n.Accepts(m.from, m.to) && n.role.Leader? && m.term == n.term && m.success
    ensures Completes(w, i, g, d, HandleAppendEntriesResponse(n, m))
  {
    var e := HandleAppendEntriesResponse(n, m);
    ReachesSame(w, i, d, d);
    ProgressLocal(w, i, n, d, m.from, m.matchIndex, m.matchIndex + 1, e.node.readAcks);
    var p := n.(progress := n.progress[m.from := Progress(m.matchIndex, m.matchIndex + 1)],
                readAcks := e.node.readAcks);
    var c := HighestCommittable(p, p.Last());
    assert e == Effect(p.(commit := c), if c > p.commit then SaveHardState(p.(commit := c)) else [], []);
    if c > p.commit {
      g := ScanCompletes(w, i, p, d, c);
    } else {
      g := w.h;
      assert p.(commit := c) == p;
    }
  }

  lemma FailureCompletes(w: World, i: Id, n: Node, d: Disk, m: Message)
    requires Local(w, i, n, d) && m.AppendEntriesResponse?
    requires n.Accepts(m.from, m.to) && n.role.Leader? && m.term == n.term && !m.success
    ensures Completes(w, i, w.h, d, HandleAppendEntriesResponse(n, m))
  {
    var was := n.ProgressOf(m.from);
    var next := if was.next > 1 then was.next - 1 else was.next;
    var p := n.(progress := n.progress[m.from := was.(next := next)]);
    assert m.from in n.progress ==> ProgressOk(w.h, n, m.from);
    ProgressLocal(w, i, n, d, m.from, was.match_, next, n.readAcks);
    assert p == n.(progress := n.progress[m.from := Progress(was.match_, next)], readAcks := n.readAcks);
    ReachesSame(w, i, d, d);
    assert NodeInv(w.h, w.nodes[i], i);
    SnapshotMessageOk(w.h, p, d, i, m.from);
    BroadcastOk(w.h, p, d, i);
  }

  lemma InstallResponseCompletes(w: World, i: Id, n: Node, d: Disk, m: Message)
    requires Local(w, i, n, d) && m.InstallSnapshotResponse? && MsgOk(w.h, m)
    ensures Completes(w, i, w.h, d, HandleInstallSnapshotResponse(n, m))
  {
    ReachesSame(w, i, d, d);
    if n.Accepts(m.from, m.to) {
      if m.term > n.term {
        StepDownCompletes(w, i, n, d, m.term, 0);
      } else if n.role.Leader? && m.term == n.term && m.success {
        var p := n.(progress := n.progress[m.from := Progress(m.matchIndex, m.matchIndex + 1)]);
        ProgressLocal(w, i, n, d, m.from, m.matchIndex, m.matchIndex + 1, n.readAcks);
        assert p == n.(progress := n.progress[m.from := Progress(m.matchIndex, m.matchIndex + 1)],
                       readAcks := n.readAcks);
        assert NodeInv(w.h, w.nodes[i], i);
        BroadcastOk(w.h, p, d, i);
      }
    }
  }

  // ---------- proposing ----------

  lemma ProposeDisk(h: History, n: Node, d: Disk, e: Entry)
    requires DiskOk(h, d) && Mirrors(n, d) && n.Valid() && e.index == n.Last() + 1
    ensures var d' := ApplyAll(d, [EntryRecord(e)]);
            && d' == d.(entries := d.entries + [e])
            && DiskOk(h, d') && Full(h.chosen, d') == Full(h.chosen, d) + [e]
            && Mirrors(n.(log := n.log + [e]), d')
  {
    ApplyOne(d, EntryRecord(e));
    BelowContiguous(d, e.index);
  }

  lemma ProposeReaches(w: World, i: Id, n: Node, d: Disk, e: Entry) returns (g: History)
    requires Local(w, i, n, d) && n.role.Leader?
    requires e.term == n.term && e.index == n.Last() + 1 && e.Fits()
    ensures var d' := ApplyAll(d, [EntryRecord(e)]);
            Reaches(w, i, g, d') && MemOk(g, n.(log := n.log + [e]), d', i)
  {
    var m := n.(log := n.log + [e]);
    NodeLog(w.h, n, d);
    g := Extend(w, i, e);
    assert GrowsBy(w.h, g, i);
    FullGrows(w.h, g, d);
    ProposeDisk(g, n, d, e);
    var d' := ApplyAll(d, [EntryRecord(e)]);
    assert StableOf(g, d') == w.nodes[i].(log := w.nodes[i].log + [e]);
    LeaderMemMoves(w.h, g, n, m, Full(w.h.chosen, d), Full(g.chosen, d'));
  }

  lemma ProposeCompletes(w: World, i: Id, n: Node, d: Disk, data: Option<Command>) returns (g: History)
    requires Local(w, i, n, d) && (data.Some? ==> data.value.WellFormed())
    ensures Completes(w, i, g, d, Propose(n, data).effect)
  {
    g := w.h;
    ReachesSame(w, i, d, d);
    if n.role.Leader? {
      var e := Entry(n.term, n.Last() + 1, data);
      var d' := ApplyAll(d, [EntryRecord(e)]);
      g := ProposeReaches(w, i, n, d, e);
      assert NodeInv(g, Moved(w, i, g, d').nodes[i], i);
      BroadcastOk(g, n.(log := n.log + [e]), d', i);
    }
  }

  // ---------- compaction ----------

  lemma TakeSnapshotDisk(w: World, i: Id, n: Node, d: Disk, index: nat, state: Option<Store>)
    requires Local(w, i, n, d) && n.offset < index <= n.applied
    ensures var e := TakeSnapshot(n, index, state);
            var d' := ApplyAll(d, e.records);
            && DiskOk(w.h, d') && Mirrors(e.node, d')
            && StableOf(w.h, d') == StableOf(w.h, d)
  {
    var e := TakeSnapshot(n, index, state);
    var d' := ApplyAll(d, e.records);
    TakeSnapshotMirrors(n, d, index, state);
    ApplyOne(d, e.records[0]);
    assert NodeInv(w.h, w.nodes[i], i);
    SettledIsChosen(w, w.nodes[i].log, n.commit, n.term);
    AgreeBelow(w.nodes[i].log, w.h.chosen, index, n.commit);
    NodeTermAt(w.h, n, d, index);
    CompactedLog(w.h.chosen, d, d', index);
  }

  /** A local snapshot of a committed prefix leaves the whole log as it was. */
  lemma TakeSnapshotCompletes(w: World, i: Id, n: Node, d: Disk, index: nat, state: Option<Store>)
    requires Local(w, i, n, d)
    ensures Completes(w, i, w.h, d, TakeSnapshot(n, index, state))
  {
    var e := TakeSnapshot(n, index, state);
    var d' := ApplyAll(d, e.records);
    if n.offset < index <= n.applied { TakeSnapshotDisk(w, i, n, d, index, state); }
    ReachesSame(w, i, d, d');
    SameHistory(w.h, i);
    if n.role.Leader? { LeaderMemMoves(w.h, w.h, n, e.node, Full(w.h.chosen, d), Full(w.h.chosen, d')); }
    if n.role.Candidate? { CandidateMemMoves(w.h, n, e.node, Full(w.h.chosen, d)); }
  }

  lemma CompactedLog(chosen: Log, d: Disk, d': Disk, index: nat)
    requires d.snap.index <= |chosen| && d.snap.index < index <= d.snap.index + |d.entries|
    requires Agree(Full(chosen, d), chosen, index)
    requires d'.snap.index == index && d'.entries == d.entries[index - d.snap.index..]
    ensures Full(chosen, d') == Full(chosen, d)
  {
    assert Full(chosen, d)[..index] == chosen[..index];
    assert Full(chosen, d)[index..] == d'.entries;
  }

  // ---------- installing a snapshot ----------

  ghost predicate Installing(w: World, i: Id, p: Node, d: Disk, m: Message) {
    && Local(w, i, p, d) && p.role.Follower?
    && m.InstallSnapshot? && MsgOk(w.h, m) && m.term == p.term
    && 0 < m.snapIndex && p.commit <= m.snapIndex && p.applied < m.snapIndex
    && !DropsSuffix(p, m)
  }

  /** The snapshot record replaces the whole log by the committed prefix it stands for. */
  lemma InstallReaches(w: World, i: Id, p: Node, d: Disk, m: Message)
    requires Installing(w, i, p, d, m)
    ensures var rec := SnapshotRecord(SnapshotMeta(m.snapIndex, m.snapTerm, m.snapData, true));
            var d' := ApplyAll(d, [rec]);
            && Reaches(w, i, w.h, d')
            && Agree(StableOf(w.h, d').log, LeadLog(w, m.term), m.snapIndex)
            && |StableOf(w.h, d').log| == m.snapIndex
            && d'.Commit() == m.snapIndex
  {
    var k, lead := m.snapIndex, LeadLog(w, m.term);
    var rec := SnapshotRecord(SnapshotMeta(k, m.snapTerm, m.snapData, true));
    var d' := ApplyAll(d, [rec]);
    ApplyOne(d, rec);
    SettledIsChosen(w, lead, k, m.term);
    NodeLog(w.h, p, d);
    if k <= p.Last() { NodeTermAt(w.h, p, d, k); }
    assert !Agree(w.nodes[i].log, lead, k + 1);
    Overwrite(w, i, k);
    var s := w.nodes[i].(log := lead[..k]);
    SettledShrinks(w.h, lead, lead[..k], k, k, m.term);
    Learn(Put(w, i, s), i, k);
    assert Full(w.h.chosen, d') == lead[..k];
    assert w.nodes[i := s][i := StableOf(w.h, d')] == w.nodes[i := StableOf(w.h, d')];
    SameHistory(w.h, i);
  }

  lemma InstalledCompletes(w: World, i: Id, p: Node, d: Disk, m: Message) returns (g: History)
    requires Installing(w, i, p, d, m) && m.snapTerm != 0 && m.snapTerm <= m.term && m.snapData.Some?
    ensures Completes(w, i, g, d, InstallPrepared(p, m, true))
  {
    var e := InstallPrepared(p, m, true);
    var rec := SnapshotRecord(SnapshotMeta(m.snapIndex, m.snapTerm, m.snapData, true));
    var d1 := ApplyAll(d, [rec]);
    InstallReaches(w, i, p, d, m);
    assert LeaderOk(w.h, m.term);
    ApplyOne(d, rec);
    ReplayHardState(d1, e.node);
    ApplyAllConcat(d, [rec], SaveHardState(e.node));
    var d' := ApplyAll(d, e.records);
    var w1 := Moved(w, i, w.h, d1);
    ReachesSame(w1, i, d1, d');
    ReachesTrans(w, i, w.h, d1, w.h, d');
    MovedTwice(w, i, w.h, d1, w.h, d');
    g := AckReaches(Moved(w, i, w.h, d'), i, e.node, d', m.snapIndex);
    ReachesTrans(w, i, w.h, d', g, d');
  }

  /** A snapshot that is not newer is answered with the committed prefix, which the leader holds. */
  lemma StaleCompletes(w: World, i: Id, p: Node, d: Disk, m: Message) returns (g: History)
    requires Local(w, i, p, d) && p.role.Follower? && m.InstallSnapshot? && MsgOk(w.h, m) && m.term == p.term
    ensures Completes(w, i, g, d,
              Effect(p, [], [InstallSnapshotResponse(i, m.from, p.term, true, Max(p.commit, p.applied))]))
  {
    CommittedShared(w, i, p, d);
    g := AckReaches(w, i, p, d, p.commit);
  }

  lemma InstallPreparedCompletes(w: World, i: Id, p: Node, d: Disk, m: Message, restored: bool) returns (g: History)
    requires Local(w, i, p, d) && p.role.Follower? && m.InstallSnapshot? && MsgOk(w.h, m) && m.term == p.term
    requires !(|InstallPrepared(p, m, restored).records| > 0 && DropsSuffix(p, m))
    ensures Completes(w, i, g, d, InstallPrepared(p, m, restored))
  {
    g := w.h;
    ReachesSame(w, i, d, d);
    if m.snapIndex == 0 || m.snapTerm == 0 || m.snapTerm > m.term || m.snapData.None? {
    } else if p.commit > m.snapIndex || p.applied >= m.snapIndex {
      g := StaleCompletes(w, i, p, d, m);
    } else if restored {
      g := InstalledCompletes(w, i, p, d, m);
    }
  }

  lemma InstallCompletes(w: World, i: Id, n: Node, d: Disk, m: Message, restored: bool) returns (g: History)
    requires Local(w, i, n, d) && m.InstallSnapshot? && MsgOk(w.h, m)
    requires !(Installs(n, m, restored) && DropsSuffix(n, m))
    ensures Completes(w, i, g, d, HandleInstallSnapshot(n, m, restored))
  {
    PrepareLocal(w, i, n, d, m.from, m.to, m.term);
    var r := PrepareForLeaderRpc(n, m.from, m.to, m.term);
    var dr := ApplyAll(d, r.records);
    g := w.h;
    if r.ok {
      g := InstallPreparedCompletes(Moved(w, i, w.h, dr), i, r.node, dr, m, restored);
      var e := InstallPrepared(r.node, m, restored);
      ApplyAllConcat(d, r.records, e.records);
      ReachesTrans(w, i, w.h, dr, g, ApplyAll(dr, e.records));
    }
  }

  lemma InstallPreparedCrash(w: World, i: Id, p: Node, d: Disk, m: Message, restored: bool, j: nat)
    requires Local(w, i, p, d) && p.role.Follower? && m.InstallSnapshot? && MsgOk(w.h, m) && m.term == p.term
    requires j < |InstallPrepared(p, m, restored).records| && !DropsSuffix(p, m)
    ensures Reaches(w, i, w.h, ApplyAll(d, InstallPrepared(p, m, restored).records[..j]))
  {
    var rs := InstallPrepared(p, m, restored).records;
    if j == 0 {
      ReachesSame(w, i, d, d);
    } else {
      InstallReaches(w, i, p, d, m);
      assert rs[..j] == [rs[0]];
    }
  }

  /** Writing anything beyond a new term means installing. */
  lemma WritingInstalls(n: Node, m: Message, restored: bool)
    requires m.InstallSnapshot?
    ensures var r := PrepareForLeaderRpc(n, m.from, m.to, m.term);
            && |r.records| <= 1
            && HandleInstallSnapshot(n, m, restored).records ==
               r.records + (if r.ok then InstallPrepared(r.node, m, restored).records else [])
            && (r.ok && |InstallPrepared(r.node, m, restored).records| > 0 ==>
                  Installs(n, m, restored) && DropsSuffix(r.node, m) == DropsSuffix(n, m))
  {
  }

  lemma InstallCrash(w: World, i: Id, n: Node, d: Disk, m: Message, restored: bool, j: nat) returns (g: History)
    requires Local(w, i, n, d) && m.InstallSnapshot? && MsgOk(w.h, m)
    requires !(Installs(n, m, restored) && DropsSuffix(n, m))
    requires j <= |HandleInstallSnapshot(n, m, restored).records|
    ensures Reaches(w, i, g, ApplyAll(d, HandleInstallSnapshot(n, m, restored).records[..j]))
  {
    var rs := HandleInstallSnapshot(n, m, restored).records;
    var r := PrepareForLeaderRpc(n, m.from, m.to, m.term);
    g := w.h;
    WritingInstalls(n, m, restored);
    if j == |rs| {
      g := InstallCompletes(w, i, n, d, m, restored);
      assert rs[..j] == rs;
    } else if j < |r.records| {
      ReachesSame(w, i, d, d);
    } else {
      PrepareLocal(w, i, n, d, m.from, m.to, m.term);
      var dr, es, rest := ApplyAll(d, r.records), InstallPrepared(r.node, m, restored).records, j - |r.records|;
      InstallPreparedCrash(Moved(w, i, w.h, dr), i, r.node, dr, m, restored, rest);
      assert rs[..j] == r.records + es[..rest];
      ApplyAllConcat(d, r.records, es[..rest]);
      ReachesTrans(w, i, w.h, dr, w.h, ApplyAll(dr, es[..rest]));
    }
  }

  // ---------- reads and applied index ----------

  lemma AdvanceCompletes(w: World, i: Id, n: Node, d: Disk, n': Node)
    requires Local(w, i, n, d) && n'.Valid()
    requires n' == n.(applied := n'.applied, readPending := n'.readPending, readIndex := n'.readIndex,
                      readContext := n'.readContext, nextContext := n'.nextContext, readAcks := n'.readAcks)
    ensures Completes(w, i, w.h, d, Effect(n', [], []))
    ensures Local(w, i, n', d)
  {
    ReachesSame(w, i, d, d);
    SameHistory(w.h, i);
    if n.role.Leader? { LeaderMemMoves(w.h, w.h, n, n', Full(w.h.chosen, d), Full(w.h.chosen, d)); }
    if n.role.Candidate? { CandidateMemMoves(w.h, n, n', Full(w.h.chosen, d)); }
  }

  lemma ReadIndexCompletes(w: World, i: Id, n: Node, d: Disk) returns (g: History)
    requires Local(w, i, n, d)
    ensures Completes(w, i, g, d, ReadIndex(n).effect)
  {
    g := w.h;
    ReachesSame(w, i, d, d);
    if n.role.Leader? && !n.readPending {
      OpenedShape(n);
      AdvanceCompletes(w, i, n, d, Opened(n));
      if n.CommittedInTerm() {
        assert NodeInv(w.h, w.nodes[i], i);
        BroadcastOk(w.h, Opened(n), d, i);
      } else {
        g := ProposeCompletes(w, i, Opened(n), d, None);
      }
    }
  }
}
