/** Pre-voting: no node ever reaches a term unless some candidate was granted a pre-vote for that
    term by a second member, whatever is lost, repeated or crashed.  In particular a node that
    hears from nobody keeps its term. */
module PreVoting {
  import opened Proto
  import opened RaftNode
  import opened Replay
  import opened Cluster

  /** Member `p` granted member `c` a pre-vote for term `t`. */
  ghost predicate Granted(net: set<Message>, p: nat, c: nat, t: nat) {
    exists rt :: PreVoteResponse(p, c, rt, true, t) in net
  }

  /** Term `t` is the initial one or was backed by two members: a candidate and another that
      granted it a pre-vote. */
  ghost predicate Backed(net: set<Message>, t: nat) {
    t == 0 || exists c: Id, p: Id {:trigger Granted(net, p, c, t)} :: c != p && Granted(net, p, c, t)
  }

  ghost predicate NodeBacked(net: set<Message>, n: Node) {
    && Backed(net, n.term)
    && (n.role.PreCandidate? ==>
          && (n.pendingPreVote == 0 || n.pendingPreVote == n.term + 1)
          && forall v {:trigger Granted(net, v, n.id, n.pendingPreVote)} ::
               v in n.preVotes && v != n.id && n.pendingPreVote != 0 ==>
                 IsMember(v) && Granted(net, v, n.id, n.pendingPreVote))
  }

  ghost predicate MsgBacked(net: set<Message>, m: Message) {
    m.PreVote? || Backed(net, m.term)
  }

  ghost predicate SlotBacked(net: set<Message>, s: Slot, i: Id) {
    && Backed(net, Recover(s.wal).hs.term)
    && (s.node.Some? ==>
            s.node.value.id == i && s.node.value.term == Recover(s.wal).hs.term && NodeBacked(net, s.node.value))
  }

  ghost predicate PreVoteInv(c: State) {
    && (forall i: Id :: i in c.slots)
    && (forall i: Id {:trigger SlotBacked(c.net, c.slots[i], i)} :: SlotBacked(c.net, c.slots[i], i))
    && (forall m {:trigger MsgBacked(c.net, m)} :: m in c.net ==> MsgBacked(c.net, m))
  }

  // ---------- where a term comes from ----------

  /** The pre-vote that completes a majority. */
  ghost predicate Wins(n: Node, m: Message) {
    && m.PreVoteResponse? && n.Accepts(m.from, m.to) && n.role.PreCandidate?
    && m.preVoteTerm != 0 && m.preVoteTerm == n.pendingPreVote
    && (|n.preVotes| > 1 || (m.granted && |n.preVotes + {m.from}| > 1))
  }

  ghost predicate TermFrom(n: Node, a: Action, n': Node) {
    || n'.term == n.term
    || (a.DoReceive? && !a.msg.PreVote? && n'.term == a.msg.term)
    || (a.DoReceive? && Wins(n, a.msg) && n'.term == n.term + 1)
  }

  ghost predicate PreVotesFrom(n: Node, a: Action, n': Node) {
    n'.role.PreCandidate? ==>
      || (n'.pendingPreVote == n'.term + 1 && n'.preVotes == {n.id as nat})
      || (&& n.role.PreCandidate? && n'.term == n.term && n'.pendingPreVote == n.pendingPreVote
          && (n'.preVotes == n.preVotes ||
              (&& a.DoReceive? && a.msg.PreVoteResponse? && a.msg.granted && n.Accepts(a.msg.from, a.msg.to)
               && a.msg.preVoteTerm == n.pendingPreVote && n'.preVotes == n.preVotes + {a.msg.from})))
  }

  ghost predicate TermsOnly(e: Effect) {
    && (forall k: nat {:trigger e.msgs[k]} :: k < |e.msgs| ==> e.msgs[k].PreVote? || e.msgs[k].term == e.node.term)
    && (forall k: nat {:trigger e.records[k]} :: k < |e.records| && e.records[k].HardStateRecord? ==>
          e.records[k].hs.term == e.node.term)
  }

  ghost predicate Origin(n: Node, a: Action, e: Effect) {
    && e.node.id == n.id
    && TermFrom(n, a, e.node) && PreVotesFrom(n, a, e.node) && TermsOnly(e)
    && (e.node.term != n.term ==> exists k: nat {:trigger e.records[k]} ::
                                    k < |e.records| && e.records[k].HardStateRecord?)
  }

  lemma BroadcastTerms(n: Node)
    ensures TermsOnly(Effect(n, [], Broadcast(n)))
  {
  }

  lemma VoteOrigin(n: Node, m: Message, heard: bool, restored: bool)
    requires m.RequestVote? || m.RequestVoteResponse? || m.PreVote?
    ensures Origin(n, DoReceive(m, heard, restored), Receive(n, m, heard, restored))
  {
    var e := Receive(n, m, heard, restored);
    BroadcastTerms(e.node);
    if e.node.term != n.term { assert e.records[0].HardStateRecord?; }
  }

  lemma PreVoteOrigin(n: Node, m: Message, heard: bool, restored: bool)
    requires m.PreVoteResponse?
    ensures Origin(n, DoReceive(m, heard, restored), Receive(n, m, heard, restored))
  {
    var e := Receive(n, m, heard, restored);
    if e.node.term != n.term { assert e.records[0].HardStateRecord?; }
  }

  lemma AppendPreparedTerms(p: Node, m: Message)
    requires m.AppendEntries?
    ensures var e := AppendPrepared(p, m);
            TermsOnly(e) && e.node.term == p.term && e.node.role == p.role && e.node.id == p.id
  {
  }

  lemma PrepareTerms(n: Node, from: nat, to: nat, t: nat)
    ensures var r := PrepareForLeaderRpc(n, from, to, t);
            && r.node.id == n.id && (r.node.term == n.term || r.node.term == t)
            && TermsOnly(Effect(r.node, r.records, []))
            && (r.node.term != n.term ==> |r.records| == 1 && r.records[0].HardStateRecord?)
            && (r.node == n || r.node.role.Follower?)
            && (r.ok ==> r.node.role.Follower?)
  {
  }

  lemma AppendOrigin(n: Node, m: Message, heard: bool, restored: bool)
    requires m.AppendEntries?
    ensures Origin(n, DoReceive(m, heard, restored), Receive(n, m, heard, restored))
  {
    var r := PrepareForLeaderRpc(n, m.from, m.to, m.term);
    PrepareTerms(n, m.from, m.to, m.term);
    AppendPreparedTerms(r.node, m);
    var e := HandleAppendEntries(n, m);
    forall k: nat | k < |e.records| && e.records[k].HardStateRecord? ensures e.records[k].hs.term == e.node.term {
      var done := AppendPrepared(r.node, m).records;
      if k < |r.records| { assert r.records[k] == e.records[k]; } else { assert done[k - |r.records|] == e.records[k]; }
    }
    if e.node.term != n.term { assert e.records[0].HardStateRecord?; }
  }

  lemma InstallOrigin(n: Node, m: Message, heard: bool, restored: bool)
    requires m.InstallSnapshot?
    ensures Origin(n, DoReceive(m, heard, restored), Receive(n, m, heard, restored))
  {
    PrepareTerms(n, m.from, m.to, m.term);
    var e := Receive(n, m, heard, restored);
    if e.node.term != n.term { assert e.records[0].HardStateRecord?; }
  }

  lemma ResponseOrigin(n: Node, m: Message, heard: bool, restored: bool)
    requires m.AppendEntriesResponse? || m.InstallSnapshotResponse?
    ensures Origin(n, DoReceive(m, heard, restored), Receive(n, m, heard, restored))
  {
    var e := Receive(n, m, heard, restored);
    BroadcastTerms(e.node);
    if e.node.term != n.term { assert e.records[0].HardStateRecord?; }
  }

  lemma ReceiveOrigin(n: Node, m: Message, heard: bool, restored: bool)
    requires n.Valid()
    ensures Origin(n, DoReceive(m, heard, restored), Act(n, DoReceive(m, heard, restored)))
  {
    if m.RequestVote? || m.RequestVoteResponse? || m.PreVote? {
      VoteOrigin(n, m, heard, restored);
    } else if m.PreVoteResponse? {
      PreVoteOrigin(n, m, heard, restored);
    } else if m.AppendEntries? {
      AppendOrigin(n, m, heard, restored);
    } else if m.InstallSnapshot? {
      InstallOrigin(n, m, heard, restored);
    } else {
      ResponseOrigin(n, m, heard, restored);
    }
  }

  lemma ActOrigin(n: Node, a: Action)
    requires n.Valid()
    ensures Origin(n, a, Act(n, a))
  {
    match a
    case DoTick(_) => BroadcastTerms(n);
    case DoReceive(m, heard, restored) => ReceiveOrigin(n, m, heard, restored);
    case DoPropose(data) => BroadcastTerms(Propose(n, data).effect.node);
    case DoAdvance(_) =>
    case DoTakeSnapshot(_, _) =>
    case DoReadIndex => BroadcastTerms(ReadIndex(n).effect.node);
    case DoFinishReadIndex(_) =>
  }

  // ---------- the invariant along a run ----------

  lemma GrantedGrows(net: set<Message>, net': set<Message>, p: nat, c: nat, t: nat)
    requires net <= net' && Granted(net, p, c, t)
    ensures Granted(net', p, c, t)
  {
    var rt :| PreVoteResponse(p, c, rt, true, t) in net;
    assert PreVoteResponse(p, c, rt, true, t) in net';
  }

  lemma BackedGrows(net: set<Message>, net': set<Message>, t: nat)
    requires net <= net' && Backed(net, t)
    ensures Backed(net', t)
  {
    if t != 0 {
      var c: Id, p: Id :| c != p && Granted(net, p, c, t);
      GrantedGrows(net, net', p, c, t);
    }
  }

  lemma NodeBackedGrows(net: set<Message>, net': set<Message>, n: Node)
    requires net <= net' && NodeBacked(net, n)
    ensures NodeBacked(net', n)
  {
    BackedGrows(net, net', n.term);
    forall v | n.role.PreCandidate? && v in n.preVotes && v != n.id && n.pendingPreVote != 0
      ensures IsMember(v) && Granted(net', v, n.id, n.pendingPreVote)
    {
      GrantedGrows(net, net', v, n.id, n.pendingPreVote);
    }
  }

  /** The term a node moves to is backed by what it has received. */
  lemma NewTermBacked(net: set<Message>, n: Node, a: Action)
    requires n.Valid() && NodeBacked(net, n)
    requires a.DoReceive? ==> a.msg in net && MsgBacked(net, a.msg)
    ensures Backed(net, Act(n, a).node.term)
  {
    ActOrigin(n, a);
    var n' := Act(n, a).node;
    if n'.term != n.term && !(a.DoReceive? && !a.msg.PreVote? && n'.term == a.msg.term) {
      var m := a.msg;
      var v := OtherMember(if |n.preVotes| > 1 then n.preVotes else n.preVotes + {m.from}, n.id);
      if v in n.preVotes {
        assert Granted(net, v, n.id, n.pendingPreVote);
      } else {
        assert PreVoteResponse(m.from, m.to, m.term, true, m.preVoteTerm) == m;
        assert Granted(net, v, n.id, n.pendingPreVote);
      }
    }
  }

  lemma NewPreVotesBacked(net: set<Message>, n: Node, a: Action)
    requires n.Valid() && NodeBacked(net, n)
    requires a.DoReceive? ==> a.msg in net && MsgBacked(net, a.msg)
    ensures NodeBacked(net, Act(n, a).node)
  {
    NewTermBacked(net, n, a);
    ActOrigin(n, a);
    var n' := Act(n, a).node;
    if n'.role.PreCandidate? {
      forall v | v in n'.preVotes && v != n'.id && n'.pendingPreVote != 0
        ensures IsMember(v) && Granted(net, v, n'.id, n'.pendingPreVote)
      {
        if v in n.preVotes {
          assert Granted(net, v, n.id, n.pendingPreVote);
        } else {
          assert PreVoteResponse(a.msg.from, a.msg.to, a.msg.term, true, a.msg.preVoteTerm) == a.msg;
        }
      }
    }
  }

  /** Whatever prefix of the records reaches the disk, it holds the old or the new term; the whole
      of them, the new one. */
  lemma {:induction false} DiskTerm(d: Disk, rs: seq<Record>, t: nat)
    requires forall k: nat {:trigger rs[k]} :: k < |rs| && rs[k].HardStateRecord? ==> rs[k].hs.term == t
    ensures var t' := ApplyAll(d, rs).hs.term;
            && (t' == d.hs.term || t' == t)
            && ((exists k: nat {:trigger rs[k]} :: k < |rs| && rs[k].HardStateRecord?) ==> t' == t)
  {
    if |rs| > 0 {
      var shorter := rs[..|rs| - 1];
      assert forall k: nat :: k < |shorter| ==> shorter[k] == rs[k];
      DiskTerm(d, shorter, t);
    }
  }

  lemma ActorBacked(c: State, s: Step, c': State)
    requires PreVoteInv(c) && Next(c, s, c')
    ensures SlotBacked(c'.net, c'.slots[s.id], s.id)
  {
    var i := s.id;
    assert SlotBacked(c.net, c.slots[i], i);
    BackedGrows(c.net, c'.net, Recover(c.slots[i].wal).hs.term);
    if s.Complete? || s.CrashDuring? {
      var n, e := NodeAt(c, i), Act(NodeAt(c, i), s.action);
      if s.action.DoReceive? { assert MsgBacked(c.net, s.action.msg); }
      NewPreVotesBacked(c.net, n, s.action);
      NodeBackedGrows(c.net, c'.net, e.node);
      ActOrigin(n, s.action);
      var rs := if s.Complete? then e.records else e.records[..s.written];
      assert forall k: nat :: k < |rs| ==> rs[k] == e.records[k];
      DiskTerm(Recover(c.slots[i].wal), rs, e.node.term);
      ApplyAllConcat(EMPTY_DISK, c.slots[i].wal, rs);
    }
  }

  lemma PreVoteStep(c: State, s: Step, c': State)
    requires PreVoteInv(c) && Next(c, s, c')
    ensures PreVoteInv(c')
  {
    ActorBacked(c, s, c');
    forall i: Id ensures SlotBacked(c'.net, c'.slots[i], i) {
      if i != s.id {
        assert SlotBacked(c.net, c.slots[i], i);
        BackedGrows(c.net, c'.net, Recover(c.slots[i].wal).hs.term);
        if c.slots[i].node.Some? { NodeBackedGrows(c.net, c'.net, c.slots[i].node.value); }
      }
    }
    forall m | m in c'.net ensures MsgBacked(c'.net, m) {
      if m in c.net {
        assert MsgBacked(c.net, m);
        if !m.PreVote? { BackedGrows(c.net, c'.net, m.term); }
      } else {
        var e := Act(NodeAt(c, s.id), s.action);
        ActOrigin(NodeAt(c, s.id), s.action);
        var k: nat :| k < |e.msgs| && e.msgs[k] == m;
        assert m.PreVote? || m.term == e.node.term;
      }
    }
  }

  /** In every run, with or without crashes, every term that a node is in or has on disk was backed
      by a majority's pre-votes for that term. */
  lemma {:induction false} TermsAreBacked(states: seq<State>, steps: seq<Step>, k: nat)
    requires Run(states, steps) && k < |states|
    ensures PreVoteInv(states[k])
    decreases k
  {
    if k > 0 {
      TermsAreBacked(states, steps, k - 1);
      assert Next(states[k - 1], steps[k - 1], states[k - 1 + 1]);
      PreVoteStep(states[k - 1], steps[k - 1], states[k]);
    }
  }

  lemma ReachedTermsBacked(states: seq<State>, steps: seq<Step>, k: nat, i: Id)
    requires Run(states, steps) && k < |states| && Up(states[k], i)
    ensures Backed(states[k].net, NodeAt(states[k], i).term)
  {
    TermsAreBacked(states, steps, k);
    assert SlotBacked(states[k].net, states[k].slots[i], i);
  }

  // ---------- a node cut off from its peers ----------

  /** Node `i` handles no message in steps `j` to `k`, neither completely nor up to a crash. */
  ghost predicate CutOff(steps: seq<Step>, i: Id, j: nat, k: nat) {
    forall x :: j <= x < k && x < |steps| && steps[x].id == i && (steps[x].Complete? || steps[x].CrashDuring?) ==>
      !steps[x].action.DoReceive?
  }

  lemma SilentStep(c: State, s: Step, c': State, i: Id)
    requires PreVoteInv(c) && Next(c, s, c')
    requires s.id == i && (s.Complete? || s.CrashDuring?) ==> !s.action.DoReceive?
    ensures i in c'.slots && Recover(c'.slots[i].wal).hs.term == Recover(c.slots[i].wal).hs.term
  {
    assert SlotBacked(c.net, c.slots[i], i);
    if s.id == i && (s.Complete? || s.CrashDuring?) {
      var e := Act(NodeAt(c, i), s.action);
      ActOrigin(NodeAt(c, i), s.action);
      var rs := if s.Complete? then e.records else e.records[..s.written];
      assert forall k: nat :: k < |rs| ==> rs[k] == e.records[k];
      DiskTerm(Recover(c.slots[i].wal), rs, e.node.term);
      ApplyAllConcat(EMPTY_DISK, c.slots[i].wal, rs);
    }
  }

  /** A node cut off from all peers never raises its term, however often it times out, crashes and
      restarts: its durable term stays, and whenever it is up that is its term in memory. */
  lemma {:induction false} CutOffKeepsTerm(states: seq<State>, steps: seq<Step>, i: Id, j: nat, k: nat)
    requires Run(states, steps) && j <= k < |states| && CutOff(steps, i, j, k)
    ensures i in states[j].slots && i in states[k].slots
    ensures Recover(states[k].slots[i].wal).hs.term == Recover(states[j].slots[i].wal).hs.term
    ensures Up(states[j], i) ==> NodeAt(states[j], i).term == Recover(states[j].slots[i].wal).hs.term
    ensures Up(states[k], i) ==> NodeAt(states[k], i).term == Recover(states[j].slots[i].wal).hs.term
    decreases k
  {
    TermsAreBacked(states, steps, k);
    assert SlotBacked(states[k].net, states[k].slots[i], i);
    if j < k {
      CutOffKeepsTerm(states, steps, i, j, k - 1);
      TermsAreBacked(states, steps, k - 1);
      assert Next(states[k - 1], steps[k - 1], states[k - 1 + 1]);
      SilentStep(states[k - 1], steps[k - 1], states[k], i);
    }
  }
}
