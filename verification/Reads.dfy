/** Linearizable reads: a round that `read_index_ready` confirms has seen everything that any
    node had committed when the round was opened.

    A call that finds a round pending joins it and gets its token, so its freshness dates from
    the opening of the round, not from the call; `StaleJoin` shows that no more is true.
 */
module Reads {
  import opened Proto
  import opened Consensus
  import opened ConsensusSteps
  import opened RaftNode
  import opened Replay
  import opened Cluster
  import opened Invariant
  import opened Safety

  // ---------- contexts ----------

  ghost predicate ContextOk(n: Node) {
    && n.readContext < n.nextContext
    && (n.readContext != 0 ==> n.role.Leader?)
    && (!n.readPending ==> n.readContext == 0)
  }

  /** A successful response answers a request that was sent, with the same context. */
  ghost predicate Echoes(net: set<Message>, m: Message) {
    m.AppendEntriesResponse? && m.success ==>
      exists r :: r in net && r.AppendEntries? && r.from == m.to && r.term == m.term && r.context == m.context
  }

  /** A leader has not yet sent, in its term, the context it will use next. */
  ghost predicate Unsent(n: Node, m: Message) {
    m.AppendEntries? && m.from == n.id && m.term == n.term ==> m.context < n.nextContext
  }

  ghost predicate NodeReads(net: set<Message>, n: Node) {
    && ContextOk(n)
    && (n.role.Leader? ==> forall m {:trigger Unsent(n, m)} :: m in net ==> Unsent(n, m))
  }

  ghost predicate ReadInv(c: State) {
    && (forall i: Id :: i in c.slots)
    && (forall m {:trigger Echoes(c.net, m)} :: m in c.net ==> Echoes(c.net, m))
    && (forall i: Id {:trigger NodeAt(c, i)} :: Up(c, i) ==> NodeReads(c.net, NodeAt(c, i)))
  }

  // ---------- what one entry point does to a round ----------

  /** Requests leave a node only while it leads, with the round it has pending. */
  ghost predicate SentBy(n: Node, m: Message) {
    m.AppendEntries? ==>
      && n.role.Leader? && m.from == n.id && m.term == n.term
      && m.context == if n.readPending then n.readContext else 0
  }

  /** A successful response leaves a node in the term of the request it answers. */
  ghost predicate AnsweredBy(n: Node, a: Action, m: Message) {
    m.AppendEntriesResponse? && m.success ==>
      && a.DoReceive? && a.msg.AppendEntries?
      && m.from == n.id && m.to == a.msg.from && m.term == a.msg.term == n.term && m.context == a.msg.context
  }

  ghost predicate WellSent(n: Node, a: Action, ms: seq<Message>) {
    forall k: nat {:trigger ms[k]} :: k < |ms| ==> SentBy(n, ms[k]) && AnsweredBy(n, a, ms[k])
  }

  ghost predicate SendsWell(n: Node, a: Action)
    requires n.Valid()
  {
    WellSent(Act(n, a).node, a, Act(n, a).msgs)
  }

  lemma BroadcastWellSent(n: Node, a: Action)
    requires n.role.Leader?
    ensures WellSent(n, a, Broadcast(n))
  {
  }

  lemma AppendSendsWell(n: Node, m: Message, heard: bool, restored: bool)
    requires n.Valid() && m.AppendEntries?
    ensures SendsWell(n, DoReceive(m, heard, restored))
  {
    var r := PrepareForLeaderRpc(n, m.from, m.to, m.term);
    AnswerShape(r.node, m);
    assert r.ok ==> r.node.term == m.term;
  }

  /** The one answer to a request carries its context, and a success the request's term. */
  lemma AnswerShape(p: Node, m: Message)
    requires m.AppendEntries?
    ensures var e := AppendPrepared(p, m);
            && e.node.term == p.term && e.node.id == p.id && |e.msgs| == 1
            && e.msgs[0].AppendEntriesResponse? && e.msgs[0].from == p.id && e.msgs[0].to == m.from
            && e.msgs[0].term == p.term && e.msgs[0].context == m.context
  {
  }

  lemma ResponseSendsWell(n: Node, m: Message, heard: bool, restored: bool)
    requires n.Valid() && m.AppendEntriesResponse?
    ensures SendsWell(n, DoReceive(m, heard, restored))
  {
    var e := HandleAppendEntriesResponse(n, m).node;
    if e.role.Leader? { BroadcastWellSent(e, DoReceive(m, heard, restored)); }
  }

  lemma InstallSendsWell(n: Node, m: Message, heard: bool, restored: bool)
    requires n.Valid() && m.InstallSnapshot?
    ensures SendsWell(n, DoReceive(m, heard, restored))
  {
  }

  lemma InstallResponseSendsWell(n: Node, m: Message, heard: bool, restored: bool)
    requires n.Valid() && m.InstallSnapshotResponse?
    ensures SendsWell(n, DoReceive(m, heard, restored))
  {
    var e := HandleInstallSnapshotResponse(n, m).node;
    if e.role.Leader? { BroadcastWellSent(e, DoReceive(m, heard, restored)); }
  }

  lemma VoteSendsWell(n: Node, m: Message, heard: bool, restored: bool)
    requires n.Valid() && m.RequestVote?
    ensures SendsWell(n, DoReceive(m, heard, restored))
  {
  }

  lemma VoteResponseSendsWell(n: Node, m: Message, heard: bool, restored: bool)
    requires n.Valid() && m.RequestVoteResponse?
    ensures SendsWell(n, DoReceive(m, heard, restored))
  {
    var e := HandleRequestVoteResponse(n, m).node;
    if e.role.Leader? { BroadcastWellSent(e, DoReceive(m, heard, restored)); }
  }

  lemma PreVoteResponseSendsWell(n: Node, m: Message, heard: bool, restored: bool)
    requires n.Valid() && m.PreVoteResponse?
    ensures SendsWell(n, DoReceive(m, heard, restored))
  {
  }

  lemma ReceiveSendsWell(n: Node, m: Message, heard: bool, restored: bool)
    requires n.Valid()
    ensures SendsWell(n, DoReceive(m, heard, restored))
  {
    match m
    case RequestVote(_, _, _, _, _) => VoteSendsWell(n, m, heard, restored);
    case RequestVoteResponse(_, _, _, _) => VoteResponseSendsWell(n, m, heard, restored);
    case PreVote(_, _, _, _, _) =>
    case PreVoteResponse(_, _, _, _, _) => PreVoteResponseSendsWell(n, m, heard, restored);
    case AppendEntries(_, _, _, _, _, _, _, _) => AppendSendsWell(n, m, heard, restored);
    case AppendEntriesResponse(_, _, _, _, _, _) => ResponseSendsWell(n, m, heard, restored);
    case InstallSnapshot(_, _, _, _, _, _) => InstallSendsWell(n, m, heard, restored);
    case InstallSnapshotResponse(_, _, _, _, _) => InstallResponseSendsWell(n, m, heard, restored);
  }

  lemma ActSendsWell(n: Node, a: Action)
    requires n.Valid()
    ensures SendsWell(n, a)
  {
    match a
    case DoTick(_) =>
    case DoReceive(m, heard, restored) => ReceiveSendsWell(n, m, heard, restored);
    case DoPropose(_) =>
    case DoAdvance(_) =>
    case DoTakeSnapshot(_, _) =>
    case DoReadIndex =>
    case DoFinishReadIndex(_) =>
  }

  /** `m` confirms the round that `n` has pending. */
  ghost predicate Confirms(n: Node, m: Message) {
    && m.AppendEntriesResponse? && m.success && n.Accepts(m.from, m.to)
    && m.term == n.term && m.context == n.readContext
  }

  /** The pending round survives unchanged but for a new confirmation, or is over; a new one
      gets a context that was never used. */
  ghost predicate RoundKept(n: Node, a: Action, n': Node) {
    && n.nextContext <= n'.nextContext && n'.id == n.id
    && (n'.role.Leader? ==> n'.term == n.term && (n.role.Leader? || n.role.Candidate?))
    && (n'.readContext != 0 ==>
          || n'.readContext == n.nextContext
          || (&& n'.readContext == n.readContext && n'.term == n.term && n'.readIndex == n.readIndex
              && (n'.readAcks == n.readAcks ||
                  (a.DoReceive? && Confirms(n, a.msg) && n'.readAcks == n.readAcks + {a.msg.from}))))
    && ContextOk(n')
  }

  lemma AppendKeepsRound(n: Node, m: Message, heard: bool, restored: bool)
    requires n.Valid() && ContextOk(n) && m.AppendEntries?
    ensures RoundKept(n, DoReceive(m, heard, restored), Receive(n, m, heard, restored).node)
  {
    RoundUntouched(PrepareForLeaderRpc(n, m.from, m.to, m.term).node, m);
  }

  lemma RoundUntouched(p: Node, m: Message)
    requires m.AppendEntries?
    ensures var q := AppendPrepared(p, m).node;
            q == p.(log := q.log, commit := q.commit)
  {
  }

  lemma ResponseKeepsRound(n: Node, m: Message, heard: bool, restored: bool)
    requires n.Valid() && ContextOk(n) && m.AppendEntriesResponse?
    ensures RoundKept(n, DoReceive(m, heard, restored), Receive(n, m, heard, restored).node)
  {
  }

  lemma InstallKeepsRound(n: Node, m: Message, heard: bool, restored: bool)
    requires n.Valid() && ContextOk(n) && m.InstallSnapshot?
    ensures RoundKept(n, DoReceive(m, heard, restored), Receive(n, m, heard, restored).node)
  {
  }

  lemma InstallResponseKeepsRound(n: Node, m: Message, heard: bool, restored: bool)
    requires n.Valid() && ContextOk(n) && m.InstallSnapshotResponse?
    ensures RoundKept(n, DoReceive(m, heard, restored), Receive(n, m, heard, restored).node)
  {
  }

  lemma VoteKeepsRound(n: Node, m: Message, heard: bool, restored: bool)
    requires n.Valid() && ContextOk(n) && m.RequestVote?
    ensures RoundKept(n, DoReceive(m, heard, restored), Receive(n, m, heard, restored).node)
  {
  }

  lemma VoteResponseKeepsRound(n: Node, m: Message, heard: bool, restored: bool)
    requires n.Valid() && ContextOk(n) && m.RequestVoteResponse?
    ensures RoundKept(n, DoReceive(m, heard, restored), Receive(n, m, heard, restored).node)
  {
  }

  lemma PreVoteResponseKeepsRound(n: Node, m: Message, heard: bool, restored: bool)
    requires n.Valid() && ContextOk(n) && m.PreVoteResponse?
    ensures RoundKept(n, DoReceive(m, heard, restored), Receive(n, m, heard, restored).node)
  {
  }

  lemma ReceiveKeepsRound(n: Node, m: Message, heard: bool, restored: bool)
    requires n.Valid() && ContextOk(n)
    ensures RoundKept(n, DoReceive(m, heard, restored), Receive(n, m, heard, restored).node)
  {
    match m
    case RequestVote(_, _, _, _, _) => VoteKeepsRound(n, m, heard, restored);
    case RequestVoteResponse(_, _, _, _) => VoteResponseKeepsRound(n, m, heard, restored);
    case PreVote(_, _, _, _, _) =>
    case PreVoteResponse(_, _, _, _, _) => PreVoteResponseKeepsRound(n, m, heard, restored);
    case AppendEntries(_, _, _, _, _, _, _, _) => AppendKeepsRound(n, m, heard, restored);
    case AppendEntriesResponse(_, _, _, _, _, _) => ResponseKeepsRound(n, m, heard, restored);
    case InstallSnapshot(_, _, _, _, _, _) => InstallKeepsRound(n, m, heard, restored);
    case InstallSnapshotResponse(_, _, _, _, _) => InstallResponseKeepsRound(n, m, heard, restored);
  }

  lemma ActKeepsRound(n: Node, a: Action)
    requires n.Valid() && ContextOk(n)
    ensures RoundKept(n, a, Act(n, a).node)
  {
    match a
    case DoTick(_) =>
    case DoReceive(m, heard, restored) => ReceiveKeepsRound(n, m, heard, restored);
    case DoPropose(_) =>
    case DoAdvance(_) =>
    case DoTakeSnapshot(_, _) =>
    case DoReadIndex =>
    case DoFinishReadIndex(_) =>
  }

  /** The round pending in `n'` was already pending in `n`. */
  ghost predicate SameRound(n: Node, n': Node) {
    n.readPending && n'.readContext == n.readContext && n'.readIndex == n.readIndex
  }

  lemma ReceiveKeepsPending(n: Node, m: Message, heard: bool, restored: bool)
    ensures var n' := Receive(n, m, heard, restored).node; n'.readPending ==> SameRound(n, n')
  {
    match m
    case RequestVote(_, _, _, _, _) =>
    case RequestVoteResponse(_, _, _, _) =>
    case PreVote(_, _, _, _, _) =>
    case PreVoteResponse(_, _, _, _, _) =>
    case AppendEntries(_, _, _, _, _, _, _, _) => RoundUntouched(PrepareForLeaderRpc(n, m.from, m.to, m.term).node, m);
    case AppendEntriesResponse(_, _, _, _, _, _) =>
    case InstallSnapshot(_, _, _, _, _, _) =>
    case InstallSnapshotResponse(_, _, _, _, _) =>
  }

  /** Only a read that finds no round pending makes one pending. */
  lemma ActKeepsPending(n: Node, a: Action)
    requires n.Valid()
    ensures var n' := Act(n, a).node;
            n'.readPending ==>
              || SameRound(n, n')
              || (a.DoReadIndex? && n.role.Leader? && !n.readPending &&
                  ReadIndex(n).token == Some(ReadToken(n'.readContext, n'.readIndex)))
  {
    match a
    case DoTick(_) =>
    case DoReceive(m, heard, restored) => ReceiveKeepsPending(n, m, heard, restored);
    case DoPropose(_) =>
    case DoAdvance(_) =>
    case DoTakeSnapshot(_, _) =>
    case DoReadIndex =>
    case DoFinishReadIndex(_) =>
  }

  // ---------- the invariant along a run ----------

  lemma ActorReads(c: State, h: History, i: Id, a: Action, m: Message)
    requires ClusterInv(c, h) && ReadInv(c) && Enabled(c, i, a)
    requires m in c.net || m in Act(NodeAt(c, i), a).msgs
    requires Act(NodeAt(c, i), a).node.role.Leader?
    ensures Unsent(Act(NodeAt(c, i), a).node, m)
  {
    var n := NodeAt(c, i);
    var n' := Act(n, a).node;
    assert NodeReads(c.net, n);
    ActKeepsRound(n, a);
    WorldLocal(c, h, i);
    if m in c.net {
      assert MsgOk(h, m);
      if n.role.Leader? { assert Unsent(n, m); }
    } else {
      ActSendsWell(n, a);
      var k: nat :| k < |Act(n, a).msgs| && Act(n, a).msgs[k] == m;
      assert SentBy(n', Act(n, a).msgs[k]);
    }
  }

  lemma ReadStep(c: State, h: History, s: Step, c': State)
    requires ClusterInv(c, h) && ReadInv(c) && Next(c, s, c')
    ensures ReadInv(c')
  {
    forall m | m in c'.net ensures Echoes(c'.net, m) {
      if m in c.net {
        assert Echoes(c.net, m);
      } else {
        ActSendsWell(NodeAt(c, s.id), s.action);
        var ms := Act(NodeAt(c, s.id), s.action).msgs;
        var k: nat :| k < |ms| && ms[k] == m;
        assert AnsweredBy(Act(NodeAt(c, s.id), s.action).node, s.action, ms[k]);
      }
    }
    forall i: Id | Up(c', i) ensures NodeReads(c'.net, NodeAt(c', i)) {
      if i != s.id {
        OtherReads(c, h, s, c', i);
      } else if s.Idle? {
        assert NodeReads(c.net, NodeAt(c, i));
      } else if s.Complete? {
        assert NodeReads(c.net, NodeAt(c, i));
        ActKeepsRound(NodeAt(c, i), s.action);
        if NodeAt(c', i).role.Leader? {
          forall m | m in c'.net ensures Unsent(NodeAt(c', i), m) { ActorReads(c, h, i, s.action, m); }
        }
      }
    }
  }

  lemma OtherReads(c: State, h: History, s: Step, c': State, i: Id)
    requires ClusterInv(c, h) && ReadInv(c) && Next(c, s, c') && i != s.id && Up(c', i)
    ensures NodeReads(c'.net, NodeAt(c', i))
  {
    var n := NodeAt(c, i);
    assert NodeAt(c', i) == n && NodeReads(c.net, n);
    WorldLocal(c, h, i);
    forall m | m in c'.net ensures n.role.Leader? ==> Unsent(n, m) {
      if m in c.net {
        assert n.role.Leader? ==> Unsent(n, m);
      } else {
        WorldLocal(c, h, s.id);
        assert NodeReads(c.net, NodeAt(c, s.id));
        ActKeepsRound(NodeAt(c, s.id), s.action);
        ActSendsWell(NodeAt(c, s.id), s.action);
        var ms := Act(NodeAt(c, s.id), s.action).msgs;
        var k: nat :| k < |ms| && ms[k] == m;
        assert SentBy(Act(NodeAt(c, s.id), s.action).node, ms[k]);
      }
    }
  }

  lemma {:induction false} RunReads(states: seq<State>, steps: seq<Step>, hs: seq<History>, k: nat)
    requires CarefulRun(states, steps) && AllInv(states, hs) && k < |states|
    ensures ReadInv(states[k])
    decreases k
  {
    if k > 0 {
      RunReads(states, steps, hs, k - 1);
      assert ClusterInv(states[k - 1], hs[k - 1]);
      assert Next(states[k - 1], steps[k - 1], states[k - 1 + 1]);
      ReadStep(states[k - 1], hs[k - 1], steps[k - 1], states[k]);
    }
  }

  // ---------- following one round ----------

  /** A round: who opened it, in which term, with which context and safe index, and the members
      that were already in a later term then. */
  datatype Round = Round(by_: Id, term: nat, context: nat, safe: nat, ahead: set<Id>)

  /** A response that confirms round `r`. */
  ghost predicate Counts(r: Round, m: Message) {
    m.AppendEntriesResponse? && m.success && m.to == r.by_ && m.term == r.term && m.context == r.context
  }

  ghost predicate Truthful(r: Round, m: Message) {
    Counts(r, m) ==> m.from !in r.ahead
  }

  ghost predicate RoundMem(r: Round, n: Node) {
    && r.context < n.nextContext
    && (n.readContext == r.context ==>
          && n.term == r.term && n.readIndex == r.safe
          && forall x :: x in n.readAcks ==> IsMember(x) && x != r.by_ && x !in r.ahead)
  }

  /** While the process lives, only members outside `ahead` confirm the round. */
  ghost predicate Following(c: State, r: Round) {
    && 0 < r.context
    && (forall i: Id :: i in c.slots)
    && Up(c, r.by_) && RoundMem(r, NodeAt(c, r.by_))
    && (forall m {:trigger Truthful(r, m)} :: m in c.net ==> Truthful(r, m))
    && (forall x: Id {:trigger DiskAt(c, x)} :: x in r.ahead ==> DiskAt(c, x).hs.term > r.term)
  }

  ghost function Opening(c: State, i: Id): Round
    requires Up(c, i) && forall x: Id :: x in c.slots
  {
    var n := NodeAt(c, i);
    Round(i, n.term, n.nextContext, Opened(n).readIndex, set x: Id | DiskAt(c, x).hs.term > n.term)
  }

  /** No confirmation of a round exists before it is opened. */
  lemma NotYetConfirmed(c: State, i: Id, m: Message)
    requires ReadInv(c) && Up(c, i) && NodeAt(c, i).role.Leader? && NodeAt(c, i).id == i && m in c.net
    ensures !Counts(Opening(c, i), m)
  {
    var n := NodeAt(c, i);
    assert NodeReads(c.net, n);
    assert forall q :: q in c.net && q.AppendEntries? && q.from == i && q.term == n.term ==>
        q.context < n.nextContext by {
      forall q | q in c.net ensures Unsent(n, q) { }
    }
    assert Echoes(c.net, m);
  }

  lemma OpeningSends(n: Node, r: Round, m: Message)
    requires n.Valid() && n.role.Leader? && !n.readPending && m in ReadIndex(n).effect.msgs
    ensures Truthful(r, m)
  {
    OpenedShape(n);
  }

  lemma OpeningMem(n: Node, r: Round)
    requires n.Valid() && n.role.Leader? && !n.readPending
    requires r.term == n.term && r.context == n.nextContext && r.safe == Opened(n).readIndex
    ensures RoundMem(r, ReadIndex(n).effect.node)
  {
    OpenedShape(n);
  }

  lemma OpeningFollows(c: State, h: History, i: Id, c': State, g: History)
    requires ClusterInv(c, h) && ReadInv(c) && Next(c, Complete(i, DoReadIndex), c')
    requires NodeAt(c, i).role.Leader? && !NodeAt(c, i).readPending
    requires forall x: Id :: StepsForward(c, h, c', g, x)
    ensures Following(c', Opening(c, i))
  {
    var n, r := NodeAt(c, i), Opening(c, i);
    assert NodeReads(c.net, n);
    assert NodeAt(c', i) == ReadIndex(n).effect.node;
    OpeningMem(n, r);
    assert n.id == i by { WorldLocal(c, h, i); }
    forall m | m in c'.net ensures Truthful(r, m) {
      if m in c.net { NotYetConfirmed(c, i, m); } else { OpeningSends(n, r, m); }
    }
    forall x: Id | x in r.ahead ensures DiskAt(c', x).hs.term > r.term {
      assert StepsForward(c, h, c', g, x);
    }
  }

  /** Every later step short of a crash of that process keeps following the round. */
  lemma FollowingStep(c: State, h: History, s: Step, c': State, g: History, r: Round)
    requires ClusterInv(c, h) && ClusterInv(c', g) && ReadInv(c) && Next(c, s, c') && Following(c, r)
    requires s.id == r.by_ ==> s.Complete? || s.Idle?
    requires forall x: Id :: StepsForward(c, h, c', g, x)
    ensures Following(c', r)
  {
    forall x: Id | x in r.ahead ensures DiskAt(c', x).hs.term > r.term {
      assert StepsForward(c, h, c', g, x);
      assert DiskAt(c, x).hs.term > r.term;
    }
    forall m | m in c'.net ensures Truthful(r, m) {
      if m in c.net { assert Truthful(r, m); } else { FollowingSends(c, h, s, c', g, r, m); }
    }
    if s.id == r.by_ && s.Complete? { FollowingMem(c, h, s, c', r); }
  }

  lemma FollowingSends(c: State, h: History, s: Step, c': State, g: History, r: Round, m: Message)
    requires ClusterInv(c, h) && ClusterInv(c', g) && ReadInv(c) && Next(c, s, c') && m in c'.net && m !in c.net
    requires forall x: Id {:trigger DiskAt(c', x)} :: x in r.ahead ==> DiskAt(c', x).hs.term > r.term
    ensures Truthful(r, m)
  {
    var n := NodeAt(c, s.id);
    ActSendsWell(n, s.action);
    var ms := Act(n, s.action).msgs;
    var k: nat :| k < |ms| && ms[k] == m;
    assert AnsweredBy(Act(n, s.action).node, s.action, ms[k]);
    WorldLocal(c', g, s.id);
    assert NodeAt(c', s.id) == Act(n, s.action).node;
    assert DiskAt(c', s.id).hs.term == NodeAt(c', s.id).term;
  }

  lemma FollowingMem(c: State, h: History, s: Step, c': State, r: Round)
    requires ClusterInv(c, h) && ReadInv(c) && Next(c, s, c') && Following(c, r) && s.id == r.by_ && s.Complete?
    ensures RoundMem(r, NodeAt(c', r.by_))
  {
    var n := NodeAt(c, s.id);
    assert NodeReads(c.net, n);
    assert n.id == s.id by { WorldLocal(c, h, s.id); }
    ActKeepsRound(n, s.action);
    if s.action.DoReceive? { assert Truthful(r, s.action.msg); }
  }

  // ---------- what was committed when the round was opened ----------

  /** Unless two members were already ahead, everything committed so far is within the safe index. */
  lemma SafeIndexCovers(c: State, h: History, i: Id, x: Id, m: Id)
    requires ClusterInv(c, h) && Up(c, i) && NodeAt(c, i).role.Leader?
    requires x != i && x !in Opening(c, i).ahead
    ensures DiskAt(c, m).Commit() <= Opening(c, i).safe
  {
    var n, w, d := NodeAt(c, i), WorldOf(c, h), DiskAt(c, m);
    WorldLocal(c, h, i);
    WorldLocal(c, h, m);
    var s := w.nodes[m];
    assert NodeInv(h, s, m);
    if s.commit > 0 {
      var t: nat, k: nat :| t <= s.term && SettledBy(h, s.log, s.commit, t, k);
      LateLeaderIsAhead(c, h, i, x, t);
      CommitWithinSafe(w, i, n, DiskAt(c, i), t, k);
    }
  }

  /** Of any two members, one has reached every term that has had a leader. */
  lemma LeaderNeedsTwo(w: World, t: nat, a: Id, b: Id)
    requires Inv(w) && a != b && t in w.h.leaders
    ensures t <= w.nodes[a].term || t <= w.nodes[b].term
  {
    var l := w.h.leaders[t];
    assert LeaderOk(w.h, t);
    assert NodeInv(w.h, w.nodes[l.id], l.id) && BallotOk(w.h, w.nodes[l.id], l.id, t);
    assert NodeInv(w.h, w.nodes[l.backer], l.backer) && BallotOk(w.h, w.nodes[l.backer], l.backer, t);
  }

  /** A leader of a later term would need two members in that term. */
  lemma LateLeaderIsAhead(c: State, h: History, i: Id, x: Id, t: nat)
    requires ClusterInv(c, h) && Up(c, i) && x != i && x !in Opening(c, i).ahead
    ensures t in h.leaders ==> t <= NodeAt(c, i).term
  {
    assert DiskAt(c, x).hs.term <= NodeAt(c, i).term;
    assert DiskAt(c, i).hs.term == NodeAt(c, i).term by { WorldLocal(c, h, i); }
    if t in h.leaders { LeaderNeedsTwo(WorldOf(c, h), t, i, x); }
  }

  /** What earlier terms committed lies below the leader's first entry of its own term. */
  lemma CommitWithinSafe(w: World, i: Id, n: Node, d: Disk, t: nat, k: nat)
    requires Local(w, i, n, d) && n.role.Leader? && (t, k) in w.h.commits && t <= n.term
    ensures k <= Opened(n).readIndex
  {
    var lead := w.h.leaders[n.term].log;
    CommitsNest(w, t, k, n.term);
    assert CommitOk(w.h, t, k) && CommitKnown(w.h, n, k);
    NodeLog(w.h, n, d);
    if t < n.term && n.CommittedInTerm() {
      NodeTermAt(w.h, n, d, n.commit);
      assert LeaderOk(w.h, n.term);
      if n.commit < k { TermsAscend(w.h, lead, n.commit - 1, k - 1); }
    }
  }

  // ---------- freshness ----------

  /** One step of a witnessed run, with everything known about it. */
  lemma StepFacts(states: seq<State>, steps: seq<Step>, hs: seq<History>, c: State, h: History, c': State, g: History,
                  k: nat)
    requires CarefulRun(states, steps) && AllInv(states, hs) && AllForward(states, hs) && k < |steps|
    requires c == states[k] && h == hs[k] && c' == states[k + 1] && g == hs[k + 1]
    ensures Next(c, steps[k], c') && ClusterInv(c, h) && ClusterInv(c', g) && ReadInv(c)
    ensures forall x: Id :: StepsForward(c, h, c', g, x)
  {
    assert Next(states[k], steps[k], states[k + 1]);
    assert ClusterInv(states[k], hs[k]) && ClusterInv(states[k + 1], hs[k + 1]);
    forall x: Id ensures StepsForward(c, h, c', g, x) {
      assert StepsForward(states[k], hs[k], states[k + 1], hs[k + 1], x);
    }
    RunReads(states, steps, hs, k);
  }

  lemma StillFollowed(states: seq<State>, steps: seq<Step>, hs: seq<History>, r: Round, k: nat)
    requires CarefulRun(states, steps) && AllInv(states, hs) && AllForward(states, hs) && k < |steps|
    requires Following(states[k], r) && (steps[k].id == r.by_ ==> steps[k].Complete? || steps[k].Idle?)
    ensures Following(states[k + 1], r)
  {
    StepFacts(states, steps, hs, states[k], hs[k], states[k + 1], hs[k + 1], k);
    FollowingStep(states[k], hs[k], steps[k], states[k + 1], hs[k + 1], r);
  }

  lemma {:induction false} RoundFollowed(states: seq<State>, steps: seq<Step>, hs: seq<History>, i: Id, j: nat, k: nat)
    requires CarefulRun(states, steps) && AllInv(states, hs) && AllForward(states, hs) && j < k < |states|
    requires steps[j] == Complete(i, DoReadIndex) && StaysUp(steps, i, j, k)
    requires Up(states[j], i) && NodeAt(states[j], i).role.Leader? && !NodeAt(states[j], i).readPending
    requires forall x: Id :: x in states[j].slots
    ensures Following(states[k], Opening(states[j], i))
    decreases k
  {
    if k == j + 1 {
      StepFacts(states, steps, hs, states[j], hs[j], states[k], hs[k], j);
      OpeningFollows(states[j], hs[j], i, states[k], hs[k]);
    } else {
      RoundFollowed(states, steps, hs, i, j, k - 1);
      StillFollowed(states, steps, hs, Opening(states[j], i), k - 1);
    }
  }

  /** Read freshness: if a round opened at moment `j` is reported ready at moment `k` of the same
      process, the node has applied every index that any node, up or down, had committed at `j`. */
  lemma ReadFreshness(states: seq<State>, steps: seq<Step>, i: Id, j: nat, k: nat, m: Id)
    requires CarefulRun(states, steps) && j < k < |states|
    requires steps[j] == Complete(i, DoReadIndex) && StaysUp(steps, i, j, k)
    requires Up(states[j], i) && NodeAt(states[j], i).role.Leader? && !NodeAt(states[j], i).readPending
    requires Up(states[k], i) && ReadIndex(NodeAt(states[j], i)).token.Some?
    requires ReadIndexReady(NodeAt(states[k], i), ReadIndex(NodeAt(states[j], i)).token.value)
    ensures m in states[j].slots && DiskAt(states[j], m).Commit() <= NodeAt(states[k], i).applied
  {
    var hs := RunInv(states, steps);
    assert ClusterInv(states[j], hs[j]) && ClusterInv(states[k], hs[k]);
    RoundFollowed(states, steps, hs, i, j, k);
    OpenedShape(NodeAt(states[j], i));
    var n := NodeAt(states[k], i);
    assert n.readAcks != {};
    var x :| x in n.readAcks;
    assert IsMember(x) && x != i && x !in Opening(states[j], i).ahead;
    SafeIndexCovers(states[j], hs[j], i, x, m);
  }
}
