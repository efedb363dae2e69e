/** What ties the running cluster to the agreement argument of `Consensus`.

    A node keeps only the entries above its snapshot.  Its whole log is the chosen log up to
    the snapshot followed by those entries; the invariant says that this is legitimate.
 */
module Invariant {
  import opened Proto
  import opened Consensus
  import opened ConsensusSteps
  import opened RaftNode
  import opened Replay
  import opened Cluster

  /** The term at an index of a whole log, 0 before the first entry. */
  ghost function TermIn(log: Log, index: nat): nat {
    if index == 0 || index > |log| then 0 else log[index - 1].term
  }

  ghost function Full(chosen: Log, d: Disk): Log {
    if d.snap.index <= |chosen| then chosen[..d.snap.index] + d.entries else d.entries
  }

  ghost function StableOf(h: History, d: Disk): Stable {
    Stable(d.hs.term, d.hs.vote, Full(h.chosen, d), d.Commit())
  }

  ghost predicate DiskOk(h: History, d: Disk) {
    && Restorable(d)
    && d.snap.index <= |h.chosen|
    && d.snap.term == TermIn(h.chosen, d.snap.index)
  }

  // ---------- memory ----------

  ghost predicate ProgressOk(h: History, n: Node, p: nat)
    requires p in n.progress
  {
    && IsMember(p) && p != n.id
    && n.progress[p].match_ <= AckOf(h, p, n.term)
    && 1 <= n.progress[p].next <= n.Last() + 1
  }

  ghost predicate CommitKnown(h: History, n: Node, k: nat) {
    (n.term, k) in h.commits ==> k <= n.commit
  }

  ghost predicate LeaderMem(h: History, n: Node, log: Log) {
    && n.term in h.leaders
    && h.leaders[n.term].id == n.id
    && h.leaders[n.term].log == log
    && (forall k: nat {:trigger CommitKnown(h, n, k)} :: CommitKnown(h, n, k))
    && (forall p {:trigger ProgressOk(h, n, p)} :: p in n.progress ==> ProgressOk(h, n, p))
  }

  ghost predicate BackedBy(h: History, n: Node, v: nat) {
    IsMember(v) && (v, n.term) in h.ballots && h.ballots[(v, n.term)].cand == n.id
  }

  ghost predicate CandidateMem(h: History, n: Node, log: Log) {
    && (n.id, n.term) in h.ballots
    && h.ballots[(n.id, n.term)] == Ballot(n.id, log)
    && (forall v {:trigger BackedBy(h, n, v)} :: v in n.votes ==> BackedBy(h, n, v))
    && (n.term in h.leaders ==> h.leaders[n.term].id != n.id)
  }

  ghost predicate MemOk(h: History, n: Node, d: Disk, i: Id) {
    && n.id == i && n.Valid() && Mirrors(n, d)
    && (n.role.Leader? ==> LeaderMem(h, n, Full(h.chosen, d)))
    && (n.role.Candidate? ==> CandidateMem(h, n, Full(h.chosen, d)))
  }

  // ---------- messages ----------

  ghost predicate SliceOk(lead: Log, prev: nat, entries: Log) {
    && prev + |entries| <= |lead|
    && forall k :: 0 <= k < |entries| ==> entries[k] == lead[prev + k]
  }

  ghost predicate MsgOk(h: History, m: Message) {
    match m
    case RequestVote(from, _, t, lastIndex, lastTerm) =>
      && IsMember(from) && (from, t) in h.ballots && h.ballots[(from, t)].cand == from
      && lastIndex == |h.ballots[(from, t)].log| && lastTerm == LastTerm(h.ballots[(from, t)].log)
    case RequestVoteResponse(from, to, t, granted) =>
      granted ==> IsMember(from) && (from, t) in h.ballots && h.ballots[(from, t)].cand == to
    case PreVote(_, _, _, _, _) => true
    case PreVoteResponse(_, _, _, _, _) => true
    case AppendEntries(from, _, t, prev, prevTerm, entries, leaderCommit, _) =>
      && t in h.leaders && h.leaders[t].id == from
      && SliceOk(h.leaders[t].log, prev, entries)
      && prevTerm == TermIn(h.leaders[t].log, prev)
      && leaderCommit <= prev + |entries|
      && Settled(h, h.leaders[t].log, leaderCommit, t)
    case AppendEntriesResponse(from, _, t, success, matchIndex, _) =>
      success ==> IsMember(from) && matchIndex <= AckOf(h, from, t)
    case InstallSnapshot(from, _, t, snapIndex, snapTerm, _) =>
      && t in h.leaders && h.leaders[t].id == from
      && snapIndex <= |h.leaders[t].log|
      && snapTerm == TermIn(h.leaders[t].log, snapIndex)
      && Settled(h, h.leaders[t].log, snapIndex, t)
    case InstallSnapshotResponse(from, _, t, success, matchIndex) =>
      success ==> IsMember(from) && matchIndex <= AckOf(h, from, t)
  }

  // ---------- the cluster invariant ----------

  ghost function WorldOf(c: State, h: History): World
    requires forall i: Id :: i in c.slots
  {
    World(map i: Id | i in c.slots :: StableOf(h, DiskAt(c, i)), h)
  }

  ghost predicate SlotOk(h: History, s: Slot, i: Id) {
    && DiskOk(h, Recover(s.wal))
    && (s.node.Some? ==> MemOk(h, s.node.value, Recover(s.wal), i))
  }

  ghost predicate ClusterInv(c: State, h: History) {
    && (forall i: Id :: i in c.slots)
    && Inv(WorldOf(c, h))
    && (forall i: Id {:trigger SlotOk(h, c.slots[i], i)} :: SlotOk(h, c.slots[i], i))
    && (forall m {:trigger MsgOk(h, m)} :: m in c.net ==> MsgOk(h, m))
  }

  // ---------- growth ----------

  ghost predicate TermBy(h: History, g: History, i: Id, t: nat) {
    && (t in h.leaders && h.leaders[t].id != i ==> t in g.leaders && g.leaders[t] == h.leaders[t])
    && (t in g.leaders && t !in h.leaders ==> g.leaders[t].id == i)
  }

  ghost predicate CommitBy(h: History, g: History, i: Id, t: nat, k: nat) {
    (t, k) in g.commits && (t, k) !in h.commits ==> t in g.leaders && g.leaders[t].id == i
  }

  /** A transition of member `i`: it may extend only its own leader log, found only its own term
      and commit only as a leader. */
  ghost predicate GrowsBy(h: History, g: History, i: Id) {
    && Grows(h, g)
    && (forall t: nat {:trigger TermBy(h, g, i, t)} :: TermBy(h, g, i, t))
    && (forall t: nat, k: nat {:trigger CommitBy(h, g, i, t, k)} :: CommitBy(h, g, i, t, k))
  }

  lemma SettledShrinks(h: History, log: Log, log': Log, c: nat, c': nat, bound: nat)
    requires Settled(h, log, c, bound) && c' <= c && Agree(log, log', c')
    ensures Settled(h, log', c', bound)
  {
    if 0 < c' {
      var t: nat, i: nat :| t <= bound && SettledBy(h, log, c, t, i);
      assert SettledBy(h, log', c', t, i);
    }
  }

  lemma MsgOkGrows(h: History, g: History, m: Message)
    requires Grows(h, g) && MsgOk(h, m) && LeadersOk(h)
    ensures MsgOk(g, m)
  {
    if m.AppendEntries? || m.InstallSnapshot? {
      assert LeaderGrows(h, g, m.term);
      var lead := h.leaders[m.term].log;
      var c := if m.AppendEntries? then m.leaderCommit else m.snapIndex;
      SettledGrows(h, g, lead, g.leaders[m.term].log, c, m.term, m.term);
    }
  }

  lemma FullGrows(h: History, g: History, d: Disk)
    requires Grows(h, g) && DiskOk(h, d)
    ensures DiskOk(g, d) && StableOf(g, d) == StableOf(h, d) && Full(g.chosen, d) == Full(h.chosen, d)
  {
    assert g.chosen[..d.snap.index] == h.chosen[..d.snap.index];
  }

  /** A node that took no part in a transition keeps its invariant. */
  lemma MemOkGrows(h: History, g: History, n: Node, d: Disk, i: Id, actor: Id)
    requires GrowsBy(h, g, actor) && i != actor && DiskOk(h, d) && MemOk(h, n, d, i)
    ensures MemOk(g, n, d, i)
  {
    FullGrows(h, g, d);
    assert TermBy(h, g, actor, n.term);
    if n.role.Leader? {
      assert LeaderGrows(h, g, n.term);
      forall k: nat ensures CommitKnown(g, n, k) { assert CommitKnown(h, n, k) && CommitBy(h, g, actor, n.term, k); }
      forall p | p in n.progress ensures ProgressOk(g, n, p) { assert ProgressOk(h, n, p); }
    }
    if n.role.Candidate? {
      if n.term in h.leaders { assert LeaderGrows(h, g, n.term); }
      forall v | v in n.votes ensures BackedBy(g, n, v) { assert BackedBy(h, n, v); }
    }
  }

  /** A leader that keeps its term and progress stays truthful. */
  lemma LeaderMemMoves(h: History, g: History, n: Node, n': Node, log: Log, log': Log)
    requires LeaderMem(h, n, log) && Grows(h, g) && g.commits == h.commits
    requires n'.id == n.id && n'.term == n.term && n.commit <= n'.commit
    requires n'.progress == n.progress && n.Last() <= n'.Last()
    requires n.term in g.leaders && g.leaders[n.term].id == n.id && g.leaders[n.term].log == log'
    ensures LeaderMem(g, n', log')
  {
    forall k: nat ensures CommitKnown(g, n', k) { assert CommitKnown(h, n, k); }
    forall p | p in n'.progress ensures ProgressOk(g, n', p) { assert ProgressOk(h, n, p); }
  }

  lemma CandidateMemMoves(h: History, n: Node, n': Node, log: Log)
    requires CandidateMem(h, n, log)
    requires n'.id == n.id && n'.term == n.term && n'.votes == n.votes
    ensures CandidateMem(h, n', log)
  {
    forall v | v in n'.votes ensures BackedBy(h, n', v) { assert BackedBy(h, n, v); }
  }

  // ---------- one node's view of a step ----------

  /** Member `i`, with disk `d`, in a consistent world. */
  ghost predicate Durable(w: World, i: Id, d: Disk) {
    Inv(w) && w.nodes[i] == StableOf(w.h, d) && DiskOk(w.h, d)
  }

  ghost predicate Local(w: World, i: Id, n: Node, d: Disk) {
    Durable(w, i, d) && MemOk(w.h, n, d, i)
  }

  /** The world after member `i` moved the history to `g` and its disk to `d`. */
  ghost function Moved(w: World, i: Id, g: History, d: Disk): World {
    Put(World(w.nodes, g), i, StableOf(g, d))
  }

  /** Durable terms and commit indexes never go back, and a vote stands for its whole term. */
  ghost predicate Forward(s: Stable, s': Stable) {
    && s.term <= s'.term && s.commit <= s'.commit
    && (s.term == s'.term && s.vote != 0 ==> s'.vote == s.vote)
  }

  /** What is newly chosen is committed on the disk of the member that moved. */
  ghost predicate ChosenBy(h: History, g: History, s: Stable) {
    g.chosen == h.chosen || |g.chosen| <= s.commit
  }

  ghost predicate Reaches(w: World, i: Id, g: History, d: Disk)
    requires i in w.nodes
  {
    && GrowsBy(w.h, g, i) && Durable(Moved(w, i, g, d), i, d)
    && Forward(w.nodes[i], StableOf(g, d)) && ChosenBy(w.h, g, StableOf(g, d))
  }

  ghost predicate MsgsOk(h: History, ms: seq<Message>) {
    forall k: nat {:trigger MsgOk(h, ms[k])} :: k < |ms| ==> MsgOk(h, ms[k])
  }

  /** A completed entry point: disk, memory and messages agree with the new history. */
  ghost predicate Completes(w: World, i: Id, g: History, d: Disk, e: Effect)
    requires i in w.nodes
  {
    && Reaches(w, i, g, ApplyAll(d, e.records))
    && MemOk(g, e.node, ApplyAll(d, e.records), i)
    && MsgsOk(g, e.msgs)
  }

  lemma MovedTwice(w: World, i: Id, g: History, d: Disk, g': History, d': Disk)
    requires i in w.nodes
    ensures Moved(Moved(w, i, g, d), i, g', d') == Moved(w, i, g', d')
  {
    assert w.nodes[i := StableOf(g, d)][i := StableOf(g', d')] == w.nodes[i := StableOf(g', d')];
  }

  lemma GrowsByTrans(h: History, g: History, f: History, i: Id)
    requires GrowsBy(h, g, i) && GrowsBy(g, f, i)
    ensures GrowsBy(h, f, i)
  {
    GrowsTrans(h, g, f);
    forall t: nat ensures TermBy(h, f, i, t) {
      assert TermBy(h, g, i, t) && TermBy(g, f, i, t);
      if t in h.leaders { assert LeaderGrows(h, g, t); }
      if t in g.leaders { assert LeaderGrows(g, f, t); }
    }
    forall t: nat, k: nat ensures CommitBy(h, f, i, t, k) {
      assert CommitBy(h, g, i, t, k) && CommitBy(g, f, i, t, k);
      if t in g.leaders { assert LeaderGrows(g, f, t); }
    }
  }

  lemma ReachesTrans(w: World, i: Id, g: History, d: Disk, f: History, d': Disk)
    requires i in w.nodes
    requires Reaches(w, i, g, d) && Reaches(Moved(w, i, g, d), i, f, d')
    ensures Reaches(w, i, f, d')
  {
    GrowsByTrans(w.h, g, f, i);
    MovedTwice(w, i, g, d, f, d');
  }

  lemma SameHistory(h: History, i: Id)
    ensures GrowsBy(h, h, i)
  {
    forall t | t in h.leaders ensures LeaderGrows(h, h, t) { }
  }

  /** A disk that means the same durable state changes nothing. */
  lemma ReachesSame(w: World, i: Id, d: Disk, d': Disk)
    requires Durable(w, i, d) && DiskOk(w.h, d') && StableOf(w.h, d') == StableOf(w.h, d)
    ensures Reaches(w, i, w.h, d')
  {
    SameHistory(w.h, i);
    assert w.nodes[i := StableOf(w.h, d')] == w.nodes;
  }

  // ---------- reading the whole log off the node ----------

  lemma NodeLog(h: History, n: Node, d: Disk)
    requires DiskOk(h, d) && Mirrors(n, d)
    ensures |Full(h.chosen, d)| == n.Last()
    ensures n.LastLogTerm() == LastTerm(Full(h.chosen, d))
  {
  }

  lemma NodeTermAt(h: History, n: Node, d: Disk, k: nat)
    requires DiskOk(h, d) && Mirrors(n, d)
    requires (k == 0 || n.offset <= k) && k <= n.Last()
    ensures n.TermAt(k) == TermIn(Full(h.chosen, d), k)
  {
  }
}
