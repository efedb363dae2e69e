/** What the Raft core computes: one node's state and, for every entry point of the
    class, the new state, the write-ahead-log records it makes durable and the messages it
    hands to the transport.  The functions describe a call during which every flush
    succeeds; `RaftCore` holds the imperative code that is proved to compute them, and says
    what is left when a flush fails.

    Timers and their random jitter are parameters (`fires`, `heardRecently`); the outcome of
    handing a snapshot to the store is a parameter (`restored`).
 */
module RaftNode {
  import opened Proto

  datatype Role = Follower | PreCandidate | Candidate | Leader

  datatype Progress = Progress(match_: nat, next: nat)

  /** A quorum round and the index that must be applied before its reads are served. */
  datatype ReadToken = ReadToken(context: nat, safeIndex: nat)

  /** `offset` also is the index of the last snapshot: the code always moves both together. */
  datatype Node = Node(
    id: Id, term: nat, vote: nat, commit: nat, applied: nat, role: Role, lead: nat,
    log: Log, offset: nat, offsetTerm: nat, snapData: Option<Store>,
    progress: map<nat, Progress>, votes: set<nat>, preVotes: set<nat>, pendingPreVote: nat,
    readPending: bool, readIndex: nat, readContext: nat, nextContext: nat, readAcks: set<nat>)
  {
    function Last(): nat {
      offset + |log|
    }

    function LastLogTerm(): nat {
      if |log| == 0 then offsetTerm else log[|log| - 1].term
    }

    function TermAt(index: nat): nat {
      if index == 0 then 0
      else if index == offset then offsetTerm
      else if index < offset || index > Last() then 0
      else log[index - offset - 1].term
    }

    predicate IsLogUpToDate(index: nat, t: nat) {
      if t != LastLogTerm() then t > LastLogTerm() else index >= Last()
    }

    /** Addressed to this node by another member. */
    predicate Accepts(from: nat, to: nat) {
      to == id && from != id && IsMember(from)
    }

    function ProgressOf(peer: nat): Progress {
      if peer in progress then progress[peer] else Progress(0, 1)
    }

    predicate CommittedInTerm() {
      commit > 0 && TermAt(commit) == term
    }

    /** Index bookkeeping that every entry point keeps. */
    predicate Valid() {
      && offset <= applied <= commit <= Last()
      && forall k :: 0 <= k < |log| ==> log[k].index == offset + k + 1
    }
  }

  datatype Effect = Effect(node: Node, records: seq<Record>, msgs: seq<Message>)

  function Fresh(id: Id): Node {
    Node(id, 0, 0, 0, 0, Follower, 0, [], 0, 0, None, map[], {}, {}, 0, false, 0, 0, 1, {})
  }

  function Peers(id: Id): seq<nat> {
    if id == 1 then [2, 3] else if id == 2 then [1, 3] else [1, 2]
  }

  /** The all-zero hard state is not written. */
  function SaveHardState(n: Node): seq<Record> {
    if n.term == 0 && n.vote == 0 && n.commit == 0 then []
    else [HardStateRecord(HardState(n.term, n.vote, n.commit))]
  }

  // ---------- role changes ----------

  function BecomeFollower(n: Node, t: nat, leader: nat): Effect {
    if t < n.term then Effect(n, [], [])
    else
      var m := n.(role := Follower, term := t, lead := leader,
                  vote := if t > n.term then 0 else n.vote,
                  readPending := false, readIndex := 0, readContext := 0, readAcks := {},
                  pendingPreVote := 0);
      Effect(m, if t > n.term then SaveHardState(m) else [], [])
  }

  function BecomePreCandidate(n: Node): Node {
    n.(role := PreCandidate, lead := 0, preVotes := {}, pendingPreVote := 0)
  }

  function BecomeCandidate(n: Node): Effect {
    var m := n.(role := Candidate, term := n.term + 1, lead := 0, vote := n.id, votes := {},
                pendingPreVote := 0);
    Effect(m, SaveHardState(m), [])
  }

  function BecomeLeader(n: Node): Effect {
    var start := Progress(0, n.Last() + 1);
    var m := n.(role := Leader, lead := n.id,
                progress := map[Peers(n.id)[0] := start, Peers(n.id)[1] := start]);
    Effect(m, [], Broadcast(m))
  }

  // ---------- elections ----------

  function PreCampaign(n: Node): Effect {
    var m := n.(pendingPreVote := n.term + 1, preVotes := n.preVotes + {n.id as nat});
    Effect(m, [], [PreVote(m.id, Peers(m.id)[0], m.pendingPreVote, m.Last(), m.LastLogTerm()),
                   PreVote(m.id, Peers(m.id)[1], m.pendingPreVote, m.Last(), m.LastLogTerm())])
  }

  function Campaign(n: Node): Effect {
    var m := n.(votes := n.votes + {n.id as nat});
    Effect(m, [], [RequestVote(m.id, Peers(m.id)[0], m.term, m.Last(), m.LastLogTerm()),
                   RequestVote(m.id, Peers(m.id)[1], m.term, m.Last(), m.LastLogTerm())])
  }

  function Tick(n: Node, fires: bool): Effect {
    if !fires then Effect(n, [], [])
    else if n.role.Leader? then Effect(n, [], Broadcast(n))
    else PreCampaign(BecomePreCandidate(n))
  }

  function HandleRequestVote(n: Node, m: Message): Effect
    requires m.RequestVote?
  {
    if !n.Accepts(m.from, m.to) then Effect(n, [], [RequestVoteResponse(n.id, m.from, n.term, false)])
    else
      var moved := if m.term > n.term then BecomeFollower(n, m.term, 0) else Effect(n, [], []);
      var p := moved.node;
      if m.term == p.term && (p.vote == 0 || p.vote == m.from) && p.IsLogUpToDate(m.lastIndex, m.lastTerm) then
        var q := p.(vote := m.from);
        Effect(q, moved.records + SaveHardState(q), [RequestVoteResponse(n.id, m.from, q.term, true)])
      else
        Effect(p, moved.records, [RequestVoteResponse(n.id, m.from, p.term, false)])
  }

  function HandleRequestVoteResponse(n: Node, m: Message): Effect
    requires m.RequestVoteResponse?
  {
    if !n.Accepts(m.from, m.to) then Effect(n, [], [])
    else if m.term > n.term then BecomeFollower(n, m.term, 0)
    else if m.term < n.term || !n.role.Candidate? then Effect(n, [], [])
    else
      var p := if m.granted then n.(votes := n.votes + {m.from}) else n;
      if |p.votes| > 1 then BecomeLeader(p) else Effect(p, [], [])
  }

  function HandlePreVote(n: Node, m: Message, heardRecently: bool): Effect
    requires m.PreVote?
  {
    var granted :=
      && n.Accepts(m.from, m.to)
      && m.term > n.term
      && !(n.lead != 0 && heardRecently)
      && n.IsLogUpToDate(m.lastIndex, m.lastTerm);
    Effect(n, [], [PreVoteResponse(n.id, m.from, n.term, granted, m.term)])
  }

  function HandlePreVoteResponse(n: Node, m: Message): Effect
    requires m.PreVoteResponse?
  {
    if !n.Accepts(m.from, m.to) then Effect(n, [], [])
    else if m.term > n.term then BecomeFollower(n, m.term, 0)
    else if !n.role.PreCandidate? || m.preVoteTerm == 0 || m.preVoteTerm != n.pendingPreVote then Effect(n, [], [])
    else
      var p := if m.granted then n.(preVotes := n.preVotes + {m.from}) else n;
      if |p.preVotes| > 1 then
        var cand := BecomeCandidate(p);
        var run := Campaign(cand.node);
        Effect(run.node, cand.records, run.msgs)
      else Effect(p, [], [])
  }

  // ---------- replication ----------

  function MakeInstallSnapshot(n: Node, peer: nat): Message {
    InstallSnapshot(n.id, peer, n.term, n.offset, n.offsetTerm, n.snapData)
  }

  /** Everything the log holds after index `prev`. */
  function Suffix(n: Node, prev: nat): Log
    requires n.offset <= prev
  {
    if prev <= n.Last() then n.log[prev - n.offset..] else []
  }

  /** One peer's share of a heartbeat: a snapshot if its next entry is compacted away,
      otherwise everything the leader holds from that entry on. */
  function MessageFor(n: Node, peer: nat): Message {
    var next := n.ProgressOf(peer).next;
    if next <= n.offset then MakeInstallSnapshot(n, peer)
    else
      var prev := next - 1;
      AppendEntries(n.id, peer, n.term, prev, n.TermAt(prev), Suffix(n, prev),
                    n.commit, if n.readPending then n.readContext else 0)
  }

  function Broadcast(n: Node): seq<Message> {
    [MessageFor(n, Peers(n.id)[0]), MessageFor(n, Peers(n.id)[1])]
  }

  datatype Prepared = Prepared(ok: bool, node: Node, records: seq<Record>)

  function PrepareForLeaderRpc(n: Node, from: nat, to: nat, t: nat): Prepared {
    if !n.Accepts(from, to) then Prepared(false, n, [])
    else
      var moved := if t > n.term then BecomeFollower(n, t, from) else Effect(n, [], []);
      if t < moved.node.term then Prepared(false, moved.node, moved.records)
      else
        var p := if moved.node.role.Follower? then moved.node else BecomeFollower(moved.node, t, from).node;
        Prepared(true, p.(lead := from), moved.records)
  }

  predicate LogMatches(n: Node, prevIndex: nat, prevTerm: nat) {
    || prevIndex == 0
    || (n.offset <= prevIndex <= n.Last() && n.TermAt(prevIndex) == prevTerm)
  }

  /** Entry `i` of a request whose entries follow `prev` is missing or differs in term here. */
  predicate IsNew(n: Node, prev: nat, entries: Log, i: nat)
    requires i < |entries|
  {
    var index := prev + i + 1;
    index > n.offset && (index > n.Last() || n.TermAt(index) != entries[i].term)
  }

  /** Position of the first such entry from `i` on, or the number of entries. */
  function FirstNew(n: Node, prev: nat, entries: Log, i: nat): (k: nat)
    requires i <= |entries|
    ensures i <= k <= |entries|
    ensures forall j :: i <= j < k ==> !IsNew(n, prev, entries, j)
    ensures k < |entries| ==> IsNew(n, prev, entries, k)
    decreases |entries| - i
  {
    if i == |entries| || IsNew(n, prev, entries, i) then i
    else FirstNew(n, prev, entries, i + 1)
  }

  function EntryRecords(entries: Log): seq<Record> {
    seq(|entries|, i requires 0 <= i < |entries| => EntryRecord(entries[i]))
  }

  /** The follower's log with the request's entries merged in from position `k` on. */
  function Merge(n: Node, prev: nat, entries: Log, k: nat): Node
    requires k < |entries| ==> n.offset <= prev + k <= n.Last()
    requires k <= |entries|
  {
    if k == |entries| then n
    else n.(log := n.log[..prev + k - n.offset] + entries[k..])
  }

  /** The consistency check, merge and commit rule of a follower that accepted the sender. */
  function AppendPrepared(p: Node, m: Message): Effect
    requires m.AppendEntries?
  {
    if !LogMatches(p, m.prevIndex, m.prevTerm) then
      Effect(p, [], [AppendEntriesResponse(p.id, m.from, p.term, false, 0, m.context)])
    else
      var k := FirstNew(p, m.prevIndex, m.entries, 0);
      if k < |m.entries| && m.prevIndex + k + 1 <= p.commit then
        Effect(p, [], [AppendEntriesResponse(p.id, m.from, p.term, false, p.commit, m.context)])
      else
        assert 0 < k ==> !IsNew(p, m.prevIndex, m.entries, k - 1);
        var q := Merge(p, m.prevIndex, m.entries, k);
        var r := if m.leaderCommit > q.commit then q.(commit := Min(m.leaderCommit, q.Last())) else q;
        Effect(r,
               EntryRecords(m.entries[k..]) + (if m.leaderCommit > q.commit then SaveHardState(r) else []),
               [AppendEntriesResponse(p.id, m.from, r.term, true, m.prevIndex + |m.entries|, m.context)])
  }

  function HandleAppendEntries(n: Node, m: Message): Effect
    requires m.AppendEntries?
  {
    var ready := PrepareForLeaderRpc(n, m.from, m.to, m.term);
    if !ready.ok then
      Effect(ready.node, ready.records, [AppendEntriesResponse(n.id, m.from, ready.node.term, false, 0, m.context)])
    else
      var done := AppendPrepared(ready.node, m);
      Effect(done.node, ready.records + done.records, done.msgs)
  }

  /** Index `i` may be committed: an uncommitted entry of the current term that, by the
      leader's records, a majority holds. */
  predicate Committable(n: Node, i: nat) {
    && n.commit < i <= n.Last()
    && n.TermAt(i) == n.term
    && exists p :: p in n.progress && n.progress[p].match_ >= i
  }

  function HighestCommittable(n: Node, i: nat): (c: nat)
    ensures c >= n.commit
    ensures c > n.commit ==> Committable(n, c)
    ensures forall j :: c < j <= i ==> !Committable(n, j)
    decreases i
  {
    if i <= n.commit then n.commit
    else if Committable(n, i) then i
    else HighestCommittable(n, i - 1)
  }

  function HandleAppendEntriesResponse(n: Node, m: Message): Effect
    requires m.AppendEntriesResponse?
  {
    if !n.Accepts(m.from, m.to) then Effect(n, [], [])
    else if m.term > n.term then BecomeFollower(n, m.term, 0)
    else if !n.role.Leader? || m.term < n.term then Effect(n, [], [])
    else if m.success then
      var acked := n.readPending && m.context != 0 && m.context == n.readContext;
      var p := n.(progress := n.progress[m.from := Progress(m.matchIndex, m.matchIndex + 1)],
                  readAcks := if acked then n.readAcks + {m.from} else n.readAcks);
      var q := p.(commit := HighestCommittable(p, p.Last()));
      Effect(q, if q.commit > p.commit then SaveHardState(q) else [], [])
    else
      var was := n.ProgressOf(m.from);
      var next := if was.next > 1 then was.next - 1 else was.next;
      var p := n.(progress := n.progress[m.from := was.(next := next)]);
      if p.offset > 0 && next <= p.offset then Effect(p, [], [MakeInstallSnapshot(p, m.from)])
      else Effect(p, [], Broadcast(p))
  }

  datatype Proposal = Proposal(effect: Effect, index: Option<nat>)

  function Propose(n: Node, data: Option<Command>): Proposal {
    if !n.role.Leader? then Proposal(Effect(n, [], []), None)
    else
      var e := Entry(n.term, n.Last() + 1, data);
      var m := n.(log := n.log + [e]);
      Proposal(Effect(m, [EntryRecord(e)], Broadcast(m)), Some(e.index))
  }

  // ---------- applying and compacting ----------

  function NextEntryToApply(n: Node): Option<Entry>
    requires n.Valid()
  {
    if n.applied >= n.commit then None else Some(n.log[n.applied - n.offset])
  }

  function Advance(n: Node, index: nat): Node {
    if index > n.commit || index != n.applied + 1 then n else n.(applied := index)
  }

  function TakeSnapshot(n: Node, index: nat, state: Option<Store>): Effect
    requires n.Valid()
  {
    if index == 0 || index <= n.offset || index > n.applied then Effect(n, [], [])
    else
      var t := n.TermAt(index);
      Effect(n.(log := n.log[index - n.offset..], offset := index, offsetTerm := t, snapData := state),
             [SnapshotRecord(SnapshotMeta(index, t, state, false))], [])
  }

  function InstallPrepared(p: Node, m: Message, restored: bool): Effect
    requires m.InstallSnapshot?
  {
    if m.snapIndex == 0 || m.snapTerm == 0 || m.snapTerm > m.term || m.snapData.None? then
      Effect(p, [], [InstallSnapshotResponse(p.id, m.from, p.term, false, 0)])
    else if p.commit > m.snapIndex || p.applied >= m.snapIndex then
      Effect(p, [], [InstallSnapshotResponse(p.id, m.from, p.term, true, Max(p.commit, p.applied))])
    else if !restored then
      Effect(p, [], [InstallSnapshotResponse(p.id, m.from, p.term, false, 0)])
    else
      var q := p.(log := [], offset := m.snapIndex, offsetTerm := m.snapTerm, snapData := m.snapData,
                  applied := m.snapIndex, commit := m.snapIndex);
      Effect(q,
             [SnapshotRecord(SnapshotMeta(m.snapIndex, m.snapTerm, m.snapData, true))] + SaveHardState(q),
             [InstallSnapshotResponse(p.id, m.from, q.term, true, m.snapIndex)])
  }

  function HandleInstallSnapshot(n: Node, m: Message, restored: bool): Effect
    requires m.InstallSnapshot?
  {
    var ready := PrepareForLeaderRpc(n, m.from, m.to, m.term);
    if !ready.ok then
      Effect(ready.node, ready.records, [InstallSnapshotResponse(n.id, m.from, ready.node.term, false, 0)])
    else
      var done := InstallPrepared(ready.node, m, restored);
      Effect(done.node, ready.records + done.records, done.msgs)
  }

  function HandleInstallSnapshotResponse(n: Node, m: Message): Effect
    requires m.InstallSnapshotResponse?
  {
    if !n.Accepts(m.from, m.to) then Effect(n, [], [])
    else if m.term > n.term then BecomeFollower(n, m.term, 0)
    else if !n.role.Leader? || m.term < n.term || !m.success then Effect(n, [], [])
    else
      var p := n.(progress := n.progress[m.from := Progress(m.matchIndex, m.matchIndex + 1)]);
      Effect(p, [], Broadcast(p))
  }

  // ---------- linearizable reads ----------

  datatype ReadStart = ReadStart(effect: Effect, token: Option<ReadToken>)

  function ReadIndex(n: Node): ReadStart {
    if !n.role.Leader? then ReadStart(Effect(n, [], []), None)
    else if n.readPending then ReadStart(Effect(n, [], []), Some(ReadToken(n.readContext, n.readIndex)))
    else
      var m := n.(readPending := true, readContext := n.nextContext, nextContext := n.nextContext + 1, readAcks := {});
      if !m.CommittedInTerm() then
        var p := m.(readIndex := m.Last() + 1);
        ReadStart(Propose(p, None).effect, Some(ReadToken(p.readContext, p.readIndex)))
      else
        var p := m.(readIndex := m.commit);
        ReadStart(Effect(p, [], Broadcast(p)), Some(ReadToken(p.readContext, p.readIndex)))
  }

  predicate ReadIndexReady(n: Node, read: ReadToken) {
    && n.role.Leader?
    && read == ReadToken(n.readContext, n.readIndex)
    && n.CommittedInTerm()
    && n.applied >= read.safeIndex
    && 1 + |n.readAcks| >= 2
  }

  function FinishReadIndex(n: Node, read: ReadToken): Node {
    if read != ReadToken(n.readContext, n.readIndex) then n
    else n.(readPending := false, readIndex := 0, readContext := 0, readAcks := {})
  }

  /** The round that a read opens. */
  function Opened(n: Node): Node {
    var m := n.(readPending := true, readContext := n.nextContext, nextContext := n.nextContext + 1, readAcks := {});
    m.(readIndex := if m.CommittedInTerm() then m.commit else m.Last() + 1)
  }

  lemma OpenedShape(n: Node)
    requires n.role.Leader? && !n.readPending
    ensures ReadIndex(n).effect ==
            if n.CommittedInTerm() then Effect(Opened(n), [], Broadcast(Opened(n))) else Propose(Opened(n), None).effect
    ensures ReadIndex(n).token == Some(ReadToken(n.nextContext, Opened(n).readIndex))
  {
  }
}
