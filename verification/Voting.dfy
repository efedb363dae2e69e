/** At most one node ever leads a term, in every run of the cluster.  The argument needs nothing of
    the logs: votes are durable before they are reported, and any two majorities share a member.
 */
module Voting {
  import opened Proto
  import opened RaftNode
  import opened Replay
  import opened Cluster
  import opened Durability

  // ---------- what the network shows of an election ----------

  /** Member `v` reported its vote for `c` in term `t`. */
  ghost predicate Gave(net: set<Message>, v: nat, c: nat, t: nat) {
    RequestVoteResponse(v, c, t, true) in net
  }

  /** Member `c` asked for votes in term `t`. */
  ghost predicate Stood(net: set<Message>, c: nat, t: nat) {
    exists to: nat, x: nat, y: nat {:trigger RequestVote(c, to, t, x, y)} :: RequestVote(c, to, t, x, y) in net
  }

  /** The disk has the vote for `c` in term `t`, or has left that term. */
  ghost predicate Bound(d: Disk, c: nat, t: nat) {
    t < d.hs.term || (t == d.hs.term && c == d.hs.vote)
  }

  /** What a message says of a vote, its sender's disk bears out. */
  ghost predicate Truthful(c: State, m: Message)
    requires forall i: Id :: i in c.slots
  {
    && (m.RequestVoteResponse? && m.granted ==>
          && IsMember(m.from) && IsMember(m.to) && m.from != m.to
          && Bound(DiskAt(c, m.from), m.to, m.term))
    && (m.RequestVote? ==> IsMember(m.from) && Bound(DiskAt(c, m.from), m.from, m.term))
  }

  ghost predicate SingleVote(net: set<Message>, v: nat, a: nat, b: nat, t: nat) {
    Gave(net, v, a, t) && Gave(net, v, b, t) ==> a == b
  }

  ghost predicate NoVoteBeside(net: set<Message>, v: nat, a: nat, t: nat) {
    !(Stood(net, v, t) && Gave(net, v, a, t))
  }

  /** Who stands or leads has asked for votes, and counts its own and those reported to it. */
  ghost predicate Supported(net: set<Message>, n: Node) {
    n.role.Candidate? || n.role.Leader? ==>
      && Stood(net, n.id, n.term)
      && (forall v {:trigger Gave(net, v, n.id, n.term)} :: v in n.votes && v != n.id ==> Gave(net, v, n.id, n.term))
      && (n.role.Leader? ==> |n.votes| > 1)
  }

  ghost predicate VoteInv(c: State) {
    && DurableInv(c)
    && (forall m {:trigger Truthful(c, m)} :: m in c.net ==> Truthful(c, m))
    && (forall v, a, b, t {:trigger SingleVote(c.net, v, a, b, t)} :: SingleVote(c.net, v, a, b, t))
    && (forall v, a, t {:trigger NoVoteBeside(c.net, v, a, t)} :: NoVoteBeside(c.net, v, a, t))
    && (forall i: Id {:trigger NodeAt(c, i)} :: Up(c, i) ==> Supported(c.net, NodeAt(c, i)))
  }

  // ---------- one entry point ----------

  /** What the effect says of votes: a grant is the vote it leaves, a request opens a new term. */
  ghost predicate SaysVote(n: Node, n': Node, m: Message) {
    && (m.RequestVoteResponse? && m.granted ==>
          m.from == n.id && m.term == n'.term && m.to == n'.vote && IsMember(m.to) && m.to != n.id)
    && (m.RequestVote? ==> m.from == n.id && m.term == n'.term == n.term + 1 && n'.vote == n.id)
  }

  ghost predicate CountsVote(n: Node, a: Action, v: nat) {
    a.DoReceive? && a.msg == RequestVoteResponse(v, n.id, n.term, true)
  }

  /** A candidacy or leadership goes on with at most one more vote, or a candidacy begins. */
  ghost predicate StandsOn(n: Node, a: Action, e: Effect) {
    e.node.role.Candidate? || e.node.role.Leader? ==>
      || (&& e.node.term == n.term && (n.role.Candidate? || n.role.Leader?)
          && (forall v :: v in e.node.votes ==> v in n.votes || CountsVote(n, a, v))
          && (e.node.role.Leader? ==> |e.node.votes| > 1 || (n.role.Leader? && e.node.votes == n.votes)))
      || (&& e.node.role.Candidate? && e.node.votes == {n.id as nat}
          && RequestVote(n.id, Peers(n.id)[0], e.node.term, e.node.Last(), e.node.LastLogTerm()) in e.msgs)
  }

  ghost predicate Votes(n: Node, a: Action, e: Effect) {
    && e.node.id == n.id
    && StandsOn(n, a, e)
    && forall m {:trigger SaysVote(n, e.node, m)} :: m in e.msgs ==> SaysVote(n, e.node, m)
  }

  lemma BroadcastVotesNothing(n: Node, n': Node, p: Node)
    ensures forall m {:trigger SaysVote(n, n', m)} :: m in Broadcast(p) ==> SaysVote(n, n', m)
  {
  }

  lemma BallotVotes(n: Node, a: Action)
    requires n.Valid() && a.DoReceive? && (a.msg.RequestVote? || a.msg.PreVote?)
    ensures Votes(n, a, Act(n, a))
  {
  }

  lemma OfficeVotes(n: Node, a: Action)
    requires n.Valid() && a.DoReceive? && a.msg.RequestVoteResponse?
    ensures Votes(n, a, Act(n, a))
  {
    BroadcastVotesNothing(n, Act(n, a).node, Act(n, a).node);
  }

  lemma CampaignVotes(n: Node, a: Action)
    requires n.Valid() && a.DoReceive? && a.msg.PreVoteResponse?
    ensures Votes(n, a, Act(n, a))
  {
  }

  lemma PreparedVotes(n: Node, from: nat, to: nat, t: nat)
    ensures var r := PrepareForLeaderRpc(n, from, to, t);
            r.node.id == n.id && (r.node == n || r.node.role.Follower?) && (r.ok ==> r.node.role.Follower?)
  {
  }

  lemma FollowerVotes(n: Node, a: Action)
    requires n.Valid() && a.DoReceive? && (a.msg.AppendEntries? || a.msg.InstallSnapshot?)
    ensures Votes(n, a, Act(n, a))
  {
    PreparedVotes(n, a.msg.from, a.msg.to, a.msg.term);
    if a.msg.AppendEntries? {
      AppendedVotes(PrepareForLeaderRpc(n, a.msg.from, a.msg.to, a.msg.term).node, a.msg);
    }
  }

  lemma AppendedVotes(p: Node, m: Message)
    requires m.AppendEntries?
    ensures var e := AppendPrepared(p, m);
            e.node.role == p.role && e.node.id == p.id && |e.msgs| == 1 && e.msgs[0].AppendEntriesResponse?
  {
  }

  lemma ResponseVotes(n: Node, a: Action)
    requires n.Valid() && a.DoReceive? && (a.msg.AppendEntriesResponse? || a.msg.InstallSnapshotResponse?)
    ensures Votes(n, a, Act(n, a))
  {
    BroadcastVotesNothing(n, Act(n, a).node, Act(n, a).node);
  }

  lemma OwnVotes(n: Node, a: Action)
    requires n.Valid() && !a.DoReceive?
    ensures Votes(n, a, Act(n, a))
  {
    BroadcastVotesNothing(n, Act(n, a).node, Act(n, a).node);
    if a.DoReadIndex? && n.role.Leader? && !n.readPending { OpenedShape(n); }
  }

  lemma ActVotes(n: Node, a: Action)
    requires n.Valid()
    ensures Votes(n, a, Act(n, a))
  {
    if !a.DoReceive? {
      OwnVotes(n, a);
    } else {
      match a.msg
      case RequestVote(_, _, _, _, _) => BallotVotes(n, a);
      case RequestVoteResponse(_, _, _, _) => OfficeVotes(n, a);
      case PreVote(_, _, _, _, _) => BallotVotes(n, a);
      case PreVoteResponse(_, _, _, _, _) => CampaignVotes(n, a);
      case AppendEntries(_, _, _, _, _, _, _, _) => FollowerVotes(n, a);
      case AppendEntriesResponse(_, _, _, _, _, _) => ResponseVotes(n, a);
      case InstallSnapshot(_, _, _, _, _, _) => FollowerVotes(n, a);
      case InstallSnapshotResponse(_, _, _, _, _) => ResponseVotes(n, a);
    }
  }

  // ---------- one step of the cluster ----------

  /** A message that was not there before says what its sender's new state is. */
  lemma NewMessage(c: State, s: Step, c': State, m: Message)
    requires VoteInv(c) && Next(c, s, c') && DurableInv(c') && m in c'.net && m !in c.net
    ensures s.Complete? && Up(c, s.id) && Up(c', s.id) && NodeAt(c, s.id).id == s.id
    ensures SaysVote(NodeAt(c, s.id), NodeAt(c', s.id), m)
    ensures Mirrors(NodeAt(c, s.id), DiskAt(c, s.id)) && Mirrors(NodeAt(c', s.id), DiskAt(c', s.id))
  {
    assert SlotDurable(c.slots[s.id], s.id) && SlotDurable(c'.slots[s.id], s.id);
    ActVotes(NodeAt(c, s.id), s.action);
    assert SaysVote(NodeAt(c, s.id), Act(NodeAt(c, s.id), s.action).node, m);
  }

  lemma StaysTruthful(c: State, s: Step, c': State, m: Message)
    requires VoteInv(c) && Next(c, s, c') && DurableInv(c') && m in c'.net
    requires forall i: Id :: Onward(DiskAt(c, i), DiskAt(c', i))
    ensures Truthful(c', m)
  {
    if m in c.net {
      assert Truthful(c, m);
      if IsMember(m.from) { assert Onward(DiskAt(c, m.from), DiskAt(c', m.from)); }
    } else {
      NewMessage(c, s, c', m);
    }
  }

  lemma StaysSingle(c: State, s: Step, c': State, v: nat, a: nat, b: nat, t: nat)
    requires VoteInv(c) && Next(c, s, c') && DurableInv(c')
    requires forall i: Id :: Onward(DiskAt(c, i), DiskAt(c', i))
    ensures SingleVote(c'.net, v, a, b, t)
  {
    var m, m' := RequestVoteResponse(v, a, t, true), RequestVoteResponse(v, b, t, true);
    assert SingleVote(c.net, v, a, b, t);
    if m in c'.net && m' in c'.net {
      StaysTruthful(c, s, c', m);
      StaysTruthful(c, s, c', m');
      if m !in c.net { NewMessage(c, s, c', m); }
      if m' !in c.net { NewMessage(c, s, c', m'); }
    }
  }

  lemma StaysAlone(c: State, s: Step, c': State, v: nat, a: nat, t: nat)
    requires VoteInv(c) && Next(c, s, c') && DurableInv(c')
    requires forall i: Id :: Onward(DiskAt(c, i), DiskAt(c', i))
    ensures NoVoteBeside(c'.net, v, a, t)
  {
    assert NoVoteBeside(c.net, v, a, t);
    var m' := RequestVoteResponse(v, a, t, true);
    if Stood(c'.net, v, t) && m' in c'.net {
      var to: nat, x: nat, y: nat :| RequestVote(v, to, t, x, y) in c'.net;
      BothSaid(c, s, c', RequestVote(v, to, t, x, y), m');
    }
  }

  /** A candidate and a voter for another in one term cannot be the same member. */
  lemma BothSaid(c: State, s: Step, c': State, m: Message, m': Message)
    requires VoteInv(c) && Next(c, s, c') && DurableInv(c') && m in c'.net && m' in c'.net
    requires forall i: Id :: Onward(DiskAt(c, i), DiskAt(c', i))
    requires m.RequestVote? && m'.RequestVoteResponse? && m'.granted && m.from == m'.from && m.term == m'.term
    ensures m in c.net && m' in c.net
  {
    StaysTruthful(c, s, c', m);
    StaysTruthful(c, s, c', m');
    if m in c.net { assert Truthful(c, m); } else { NewMessage(c, s, c', m); }
    if m' in c.net { assert Truthful(c, m'); } else { NewMessage(c, s, c', m'); }
  }

  lemma StoodGrows(net: set<Message>, net': set<Message>, c: nat, t: nat)
    requires net <= net' && Stood(net, c, t)
    ensures Stood(net', c, t)
  {
    var to: nat, x: nat, y: nat :| RequestVote(c, to, t, x, y) in net;
    assert RequestVote(c, to, t, x, y) in net';
  }

  lemma SupportGrows(net: set<Message>, net': set<Message>, n: Node)
    requires net <= net' && Supported(net, n)
    ensures Supported(net', n)
  {
    if n.role.Candidate? || n.role.Leader? {
      StoodGrows(net, net', n.id, n.term);
      forall v | v in n.votes && v != n.id ensures Gave(net', v, n.id, n.term) { assert Gave(net, v, n.id, n.term); }
    }
  }

  lemma MoverSupported(c: State, i: Id, a: Action, c': State)
    requires VoteInv(c) && Next(c, Complete(i, a), c')
    ensures Supported(c'.net, NodeAt(c', i))
  {
    var n, e := NodeAt(c, i), Act(NodeAt(c, i), a);
    ActVotes(n, a);
    if e.node.role.Candidate? || e.node.role.Leader? {
      if RequestVote(n.id, Peers(n.id)[0], e.node.term, e.node.Last(), e.node.LastLogTerm()) in e.msgs &&
         e.node.role.Candidate? && e.node.votes == {n.id as nat} {
        assert RequestVote(n.id, Peers(n.id)[0], e.node.term, e.node.Last(), e.node.LastLogTerm()) in c'.net;
      } else {
        StoodGrows(c.net, c'.net, n.id, n.term);
        forall v | v in e.node.votes && v != n.id ensures Gave(c'.net, v, n.id, n.term) {
          if v in n.votes { assert Gave(c.net, v, n.id, n.term); }
        }
      }
    }
  }

  lemma VoteStep(c: State, s: Step, c': State)
    requires VoteInv(c) && Next(c, s, c')
    ensures VoteInv(c')
  {
    DurableStep(c, s, c');
    forall m | m in c'.net ensures Truthful(c', m) { StaysTruthful(c, s, c', m); }
    forall v, a, b, t ensures SingleVote(c'.net, v, a, b, t) { StaysSingle(c, s, c', v, a, b, t); }
    forall v, a, t ensures NoVoteBeside(c'.net, v, a, t) { StaysAlone(c, s, c', v, a, t); }
    forall i: Id | Up(c', i) ensures Supported(c'.net, NodeAt(c', i)) {
      if i == s.id && s.Complete? {
        MoverSupported(c, i, s.action, c');
      } else if i != s.id || s.Idle? {
        assert NodeAt(c', i) == NodeAt(c, i);
        SupportGrows(c.net, c'.net, NodeAt(c, i));
      }
    }
  }

  // ---------- over whole runs ----------

  lemma {:induction false} RunVotes(states: seq<State>, steps: seq<Step>, k: nat)
    requires Run(states, steps) && k < |states|
    ensures VoteInv(states[k])
    decreases k
  {
    if k == 0 {
      RunDurable(states, steps, 0);
    } else {
      RunVotes(states, steps, k - 1);
      assert Next(states[k - 1], steps[k - 1], states[k - 1 + 1]);
      VoteStep(states[k - 1], steps[k - 1], states[k]);
    }
  }

  lemma {:induction false} NetGrows(states: seq<State>, steps: seq<Step>, j: nat, k: nat)
    requires Run(states, steps) && j <= k < |states|
    ensures states[j].net <= states[k].net
    decreases k
  {
    if j < k {
      NetGrows(states, steps, j, k - 1);
      assert Next(states[k - 1], steps[k - 1], states[k - 1 + 1]);
    }
  }

  /** Member `a` stood in term `t` and a second member voted for it. */
  ghost predicate Won(net: set<Message>, a: nat, t: nat) {
    Stood(net, a, t) && exists v {:trigger Gave(net, v, a, t)} :: v != a && Gave(net, v, a, t)
  }

  lemma LeaderWon(c: State, i: Id)
    requires VoteInv(c) && Up(c, i) && NodeAt(c, i).role.Leader?
    ensures Won(c.net, i, NodeAt(c, i).term)
  {
    var n := NodeAt(c, i);
    assert SlotDurable(c.slots[i], i) && Supported(c.net, n);
    var v := OtherMember(n.votes, i);
    assert Gave(c.net, v, n.id, n.term);
  }

  lemma WonGrows(net: set<Message>, net': set<Message>, a: nat, t: nat)
    requires net <= net' && Won(net, a, t)
    ensures Won(net', a, t)
  {
    StoodGrows(net, net', a, t);
    var v :| v != a && Gave(net, v, a, t);
    assert Gave(net', v, a, t);
  }

  /** The second member of either winner is the third one, which has one vote. */
  lemma OneWinner(c: State, a: Id, b: Id, t: nat)
    requires VoteInv(c) && Won(c.net, a, t) && Won(c.net, b, t)
    ensures a == b
  {
    var v :| v != a && Gave(c.net, v, a, t);
    var w :| w != b && Gave(c.net, w, b, t);
    assert Truthful(c, RequestVoteResponse(v, a, t, true)) && Truthful(c, RequestVoteResponse(w, b, t, true));
    assert NoVoteBeside(c.net, v, a, t) && NoVoteBeside(c.net, w, b, t);
    assert SingleVote(c.net, v, a, b, t);
  }

  /** At most one node ever leads a term, whatever crashes and restarts lie in between. */
  lemma ElectionSafety(states: seq<State>, steps: seq<Step>, j: nat, a: Id, k: nat, b: Id)
    requires Run(states, steps) && j < |states| && k < |states|
    requires Up(states[j], a) && Up(states[k], b)
    requires NodeAt(states[j], a).role.Leader? && NodeAt(states[k], b).role.Leader?
    requires NodeAt(states[j], a).term == NodeAt(states[k], b).term
    ensures a == b
  {
    var t, last := NodeAt(states[j], a).term, |states| - 1;
    RunVotes(states, steps, j);
    RunVotes(states, steps, k);
    RunVotes(states, steps, last);
    LeaderWon(states[j], a);
    LeaderWon(states[k], b);
    NetGrows(states, steps, j, last);
    NetGrows(states, steps, k, last);
    WonGrows(states[j].net, states[last].net, a, t);
    WonGrows(states[k].net, states[last].net, b, t);
    OneWinner(states[last], a, b, t);
  }
}
