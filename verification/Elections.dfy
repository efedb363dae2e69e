/** Elections keep the cluster invariant: stepping down, voting, pre-voting, campaigning and
    taking office, completed or cut short by a crash. */
module Elections {
  import opened Proto
  import opened Consensus
  import opened ConsensusSteps
  import opened RaftNode
  import opened Replay
  import opened Invariant

  /** Moving to a later term, by any hard-state record that says so. */
  lemma BumpReaches(w: World, i: Id, n: Node, d: Disk, t: nat, lead: nat)
    requires Local(w, i, n, d) && n.term < t
    ensures var e := BecomeFollower(n, t, lead);
            && |e.records| == 1
            && Completes(w, i, w.h, d, e)
  {
    var e := BecomeFollower(n, t, lead);
    ReplayHardState(d, e.node);
    Bump(w, i, t);
    SameHistory(w.h, i);
    var d' := ApplyAll(d, e.records);
    assert StableOf(w.h, d') == w.nodes[i].(term := t, vote := 0);
  }

  lemma StepDownCompletes(w: World, i: Id, n: Node, d: Disk, t: nat, lead: nat)
    requires Local(w, i, n, d)
    ensures Completes(w, i, w.h, d, BecomeFollower(n, t, lead))
  {
    if n.term < t { BumpReaches(w, i, n, d, t, lead); } else { ReachesSame(w, i, d, d); }
  }

  /** Preparing for a leader's request leaves the node in the sender's term, or refuses. */
  lemma PrepareLocal(w: World, i: Id, n: Node, d: Disk, from: nat, to: nat, t: nat)
    requires Local(w, i, n, d)
    ensures var r := PrepareForLeaderRpc(n, from, to, t);
            && |r.records| <= 1
            && Reaches(w, i, w.h, ApplyAll(d, r.records))
            && MemOk(w.h, r.node, ApplyAll(d, r.records), i)
            && (r.ok ==> r.node.term == t && r.node.role.Follower?)
  {
    ReachesSame(w, i, d, d);
    if n.Accepts(from, to) && t > n.term { BumpReaches(w, i, n, d, t, from); }
  }

  /** A ballot for another member: the vote is durable before it is reported. */
  lemma GrantCompletes(w: World, i: Id, p: Node, d: Disk, m: Message) returns (g: History)
    requires Local(w, i, p, d) && m.RequestVote? && MsgOk(w.h, m)
    requires p.Accepts(m.from, m.to) && m.term == p.term
    requires (p.vote == 0 || p.vote == m.from) && p.IsLogUpToDate(m.lastIndex, m.lastTerm)
    ensures var q := p.(vote := m.from);
            Completes(w, i, g, d, Effect(q, SaveHardState(q), [RequestVoteResponse(i, m.from, q.term, true)]))
  {
    var q := p.(vote := m.from);
    var s := w.nodes[i];
    VoterIsFree(w, i, p, d, m);
    ReplayHardState(d, q);
    var d' := ApplyAll(d, SaveHardState(q));
    NodeLog(w.h, p, d);
    if p.vote == 0 {
      g := Vote(w, i, m.from);
      assert StableOf(g, d') == s.(vote := m.from);
      assert GrowsBy(w.h, g, i);
    } else {
      g := w.h;
      ReachesSame(w, i, d, d');
    }
  }

  /** A node that may still vote for another one neither stands nor leads in the term. */
  lemma VoterIsFree(w: World, i: Id, p: Node, d: Disk, m: Message)
    requires Local(w, i, p, d) && m.RequestVote? && MsgOk(w.h, m) && p.Accepts(m.from, m.to) && m.term == p.term
    requires p.vote == 0 || p.vote == m.from
    ensures !p.role.Candidate? && !p.role.Leader? && p.term > 0
    ensures p.vote != 0 ==> (i, p.term) in w.h.ballots && w.h.ballots[(i, p.term)].cand == p.vote
  {
    var s := w.nodes[i];
    assert NodeInv(w.h, s, i);
    assert (i, p.term) in w.h.ballots ==> BallotOk(w.h, s, i, p.term);
    assert (m.from, m.term) in w.h.ballots;
    assert NodeInv(w.h, w.nodes[m.from], m.from) && BallotOk(w.h, w.nodes[m.from], m.from, m.term);
    assert p.term in w.h.leaders ==> LeaderOk(w.h, p.term);
  }

  /** Granting after having moved to the candidate's term. */
  lemma MovedGrantCompletes(w: World, i: Id, p: Node, d: Disk, rs: seq<Record>, m: Message) returns (g: History)
    requires Inv(w) && Reaches(w, i, w.h, ApplyAll(d, rs)) && MemOk(w.h, p, ApplyAll(d, rs), i)
    requires m.RequestVote? && MsgOk(w.h, m)
    requires p.Accepts(m.from, m.to) && m.term == p.term
    requires (p.vote == 0 || p.vote == m.from) && p.IsLogUpToDate(m.lastIndex, m.lastTerm)
    ensures var q := p.(vote := m.from);
            Completes(w, i, g, d, Effect(q, rs + SaveHardState(q), [RequestVoteResponse(i, m.from, q.term, true)]))
  {
    var dp, q := ApplyAll(d, rs), p.(vote := m.from);
    g := GrantCompletes(Moved(w, i, w.h, dp), i, p, dp, m);
    ApplyAllConcat(d, rs, SaveHardState(q));
    ReachesTrans(w, i, w.h, dp, g, ApplyAll(dp, SaveHardState(q)));
  }

  /** Moving to the candidate's term, if it is newer. */
  function Joined(n: Node, t: nat): Effect {
    if t > n.term then BecomeFollower(n, t, 0) else Effect(n, [], [])
  }

  lemma JoinedCompletes(w: World, i: Id, n: Node, d: Disk, t: nat, answer: Message)
    requires Local(w, i, n, d) && MsgOk(w.h, answer)
    ensures Completes(w, i, w.h, d, Effect(Joined(n, t).node, Joined(n, t).records, [answer]))
  {
    if t > n.term {
      StepDownCompletes(w, i, n, d, t, 0);
    } else {
      ReachesSame(w, i, d, d);
    }
  }

  lemma RequestVoteCompletes(w: World, i: Id, n: Node, d: Disk, m: Message) returns (g: History)
    requires Local(w, i, n, d) && m.RequestVote? && MsgOk(w.h, m)
    ensures Completes(w, i, g, d, HandleRequestVote(n, m))
  {
    g := w.h;
    if n.Accepts(m.from, m.to) {
      var moved := Joined(n, m.term);
      var p := moved.node;
      JoinedCompletes(w, i, n, d, m.term, RequestVoteResponse(i, m.from, p.term, false));
      if m.term == p.term && (p.vote == 0 || p.vote == m.from) && p.IsLogUpToDate(m.lastIndex, m.lastTerm) {
        g := MovedGrantCompletes(w, i, p, d, moved.records, m);
      }
    } else {
      JoinedCompletes(w, i, n, d, n.term, RequestVoteResponse(i, m.from, n.term, false));
    }
  }

  /** A crash inside the handler leaves nothing, the new term, or the new term and the vote. */
  lemma RequestVoteCrash(w: World, i: Id, n: Node, d: Disk, m: Message, j: nat) returns (g: History)
    requires Local(w, i, n, d) && m.RequestVote? && MsgOk(w.h, m)
    requires j <= |HandleRequestVote(n, m).records|
    ensures Reaches(w, i, g, ApplyAll(d, HandleRequestVote(n, m).records[..j]))
  {
    var rs := HandleRequestVote(n, m).records;
    g := w.h;
    if j == |rs| {
      g := RequestVoteCompletes(w, i, n, d, m);
      assert rs[..j] == rs;
    } else if j == 0 {
      ReachesSame(w, i, d, d);
    } else {
      var moved := BecomeFollower(n, m.term, 0);
      StepDownCompletes(w, i, n, d, m.term, 0);
      assert rs[..j] == moved.records;
    }
  }

  // ---------- taking office ----------

  /** Two candidates of one term cannot both be backed by a second member. */
  lemma NoOtherLeader(w: World, i: Id, v: Id, t: nat)
    requires Inv(w) && i != v
    requires (i, t) in w.h.ballots && w.h.ballots[(i, t)].cand == i
    requires (v, t) in w.h.ballots && w.h.ballots[(v, t)].cand == i
    ensures t in w.h.leaders ==> w.h.leaders[t].id == i
  {
    if t in w.h.leaders { assert LeaderOk(w.h, t); }
  }

  lemma SnapshotMessageOk(h: History, n: Node, d: Disk, i: Id, p: nat)
    requires DiskOk(h, d) && MemOk(h, n, d, i) && n.role.Leader?
    requires Settled(h, Full(h.chosen, d), n.commit, n.term)
    ensures MsgOk(h, MakeInstallSnapshot(n, p))
  {
    NodeLog(h, n, d);
    NodeTermAt(h, n, d, n.offset);
    var lead := h.leaders[n.term].log;
    SettledShrinks(h, lead, lead, n.commit, n.offset, n.term);
  }

  lemma SuffixIsSlice(chosen: Log, d: Disk, prev: nat)
    requires d.snap.index <= |chosen| && d.snap.index <= prev <= d.snap.index + |d.entries|
    ensures SliceOk(Full(chosen, d), prev, d.entries[prev - d.snap.index..])
    ensures prev + |d.entries[prev - d.snap.index..]| == |Full(chosen, d)|
  {
  }

  lemma MessageForOk(h: History, n: Node, d: Disk, i: Id, p: nat)
    requires DiskOk(h, d) && MemOk(h, n, d, i) && n.role.Leader?
    requires Settled(h, Full(h.chosen, d), n.commit, n.term)
    ensures MsgOk(h, MessageFor(n, p))
  {
    if n.ProgressOf(p).next <= n.offset {
      SnapshotMessageOk(h, n, d, i, p);
    } else {
      assert p in n.progress ==> ProgressOk(h, n, p);
      var prev := n.ProgressOf(p).next - 1;
      assert n.offset <= prev <= n.Last();
      SuffixIsSlice(h.chosen, d, prev);
      assert n.TermAt(prev) == TermIn(Full(h.chosen, d), prev) by { NodeTermAt(h, n, d, prev); }
    }
  }

  /** Everything a leader sends is a slice of its own log, with a commit index that the slice
      reaches, or a snapshot of a committed prefix. */
  lemma BroadcastOk(h: History, n: Node, d: Disk, i: Id)
    requires DiskOk(h, d) && MemOk(h, n, d, i) && n.role.Leader?
    requires Settled(h, Full(h.chosen, d), n.commit, n.term)
    ensures MsgsOk(h, Broadcast(n))
  {
    MessageForOk(h, n, d, i, Peers(n.id)[0]);
    MessageForOk(h, n, d, i, Peers(n.id)[1]);
  }

  lemma TakeOffice(w: World, i: Id, n: Node, d: Disk) returns (g: History)
    requires Durable(w, i, d) && MemOk(w.h, n, d, i) && n.role.Candidate? && |n.votes| > 1
    ensures Completes(w, i, g, d, BecomeLeader(n))
  {
    var v := OtherMember(n.votes, i);
    assert BackedBy(w.h, n, v);
    NoOtherLeader(w, i, v, n.term);
    g := Elect(w, i, v, n.term);
    assert GrowsBy(w.h, g, i);
    assert NodeInv(w.h, w.nodes[i], i);
    FullGrows(w.h, g, d);
    SettledGrows(w.h, g, w.nodes[i].log, w.nodes[i].log, n.commit, n.term, n.term);
    assert Moved(w, i, g, d) == World(w.nodes, g) by {
      assert w.nodes[i := StableOf(g, d)] == w.nodes;
    }
    var e := BecomeLeader(n);
    NewLeaderMem(w.h, g, n, Full(g.chosen, d));
    BroadcastOk(g, e.node, d, i);
  }

  /** A new leader knows of no progress, and of no commit in its term. */
  lemma NewLeaderMem(h: History, g: History, n: Node, log: Log)
    requires HistoryInv(h) && n.term !in h.leaders && g.commits == h.commits
    requires n.term in g.leaders && g.leaders[n.term].id == n.id && g.leaders[n.term].log == log
    ensures LeaderMem(g, BecomeLeader(n).node, log)
  {
    var p := BecomeLeader(n).node;
    forall k: nat ensures CommitKnown(g, p, k) {
      assert (n.term, k) in h.commits ==> CommitOk(h, n.term, k);
    }
    forall x | x in p.progress ensures ProgressOk(g, p, x) { }
  }

  lemma RequestVoteResponseCompletes(w: World, i: Id, n: Node, d: Disk, m: Message) returns (g: History)
    requires Local(w, i, n, d) && m.RequestVoteResponse? && MsgOk(w.h, m)
    ensures Completes(w, i, g, d, HandleRequestVoteResponse(n, m))
  {
    g := w.h;
    ReachesSame(w, i, d, d);
    if n.Accepts(m.from, m.to) {
      if m.term > n.term {
        StepDownCompletes(w, i, n, d, m.term, 0);
      } else if m.term == n.term && n.role.Candidate? {
        var p := if m.granted then n.(votes := n.votes + {m.from}) else n;
        forall v | v in p.votes ensures BackedBy(w.h, p, v) {
          if v in n.votes { assert BackedBy(w.h, n, v); }
        }
        assert MemOk(w.h, p, d, i);
        if |p.votes| > 1 { g := TakeOffice(w, i, p, d); }
      }
    }
  }

  // ---------- campaigning ----------

  lemma CandidacyCompletes(w: World, i: Id, n: Node, d: Disk) returns (g: History)
    requires Local(w, i, n, d)
    ensures var cand := BecomeCandidate(n);
            var run := Campaign(cand.node);
            Completes(w, i, g, d, Effect(run.node, cand.records, run.msgs))
  {
    var cand := BecomeCandidate(n);
    var run := Campaign(cand.node);
    ReplayHardState(d, cand.node);
    assert NodeInv(w.h, w.nodes[i], i);
    g := Candidacy(w, i);
    var d' := ApplyAll(d, cand.records);
    assert StableOf(g, d') == w.nodes[i].(term := n.term + 1, vote := i);
    assert GrowsBy(w.h, g, i);
    NodeLog(w.h, n, d);
    if run.node.term in w.h.leaders {
      assert LeaderOk(w.h, run.node.term);
    }
    forall v | v in run.node.votes ensures BackedBy(g, run.node, v) { }
    forall k: nat | k < |run.msgs| ensures MsgOk(g, run.msgs[k]) { }
  }

  lemma PreVoteResponseCompletes(w: World, i: Id, n: Node, d: Disk, m: Message) returns (g: History)
    requires Local(w, i, n, d) && m.PreVoteResponse?
    ensures Completes(w, i, g, d, HandlePreVoteResponse(n, m))
  {
    g := w.h;
    ReachesSame(w, i, d, d);
    if n.Accepts(m.from, m.to) {
      if m.term > n.term {
        StepDownCompletes(w, i, n, d, m.term, 0);
      } else if n.role.PreCandidate? && m.preVoteTerm != 0 && m.preVoteTerm == n.pendingPreVote {
        var p := if m.granted then n.(preVotes := n.preVotes + {m.from}) else n;
        if |p.preVotes| > 1 { g := CandidacyCompletes(w, i, p, d); }
      }
    }
  }

  lemma TickCompletes(w: World, i: Id, n: Node, d: Disk, fires: bool)
    requires Local(w, i, n, d)
    ensures Completes(w, i, w.h, d, Tick(n, fires))
  {
    ReachesSame(w, i, d, d);
    if fires && n.role.Leader? {
      assert NodeInv(w.h, w.nodes[i], i);
      BroadcastOk(w.h, n, d, i);
    }
  }
}
