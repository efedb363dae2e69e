/** Building runs step by step, for showing that some state is reachable. */
module Runs {
  import opened Proto
  import opened RaftNode
  import opened Replay
  import opened Cluster

  // ---------- building a run ----------

  datatype Trio = Trio(n1: Node, n2: Node, n3: Node) {
    function Get(i: Id): Node {
      if i == 1 then n1 else if i == 2 then n2 else n3
    }

    function Set(i: Id, n: Node): Trio {
      if i == 1 then Trio(n, n2, n3) else if i == 2 then Trio(n1, n, n3) else Trio(n1, n2, n)
    }
  }

  ghost predicate Shows(c: State, t: Trio, ms: set<Message>) {
    && (forall i: Id {:trigger Up(c, i)} :: Up(c, i) && NodeAt(c, i) == t.Get(i))
    && ms <= c.net
  }

  ghost predicate NoCrash(steps: seq<Step>) {
    forall k {:trigger steps[k]} :: 0 <= k < |steps| ==> steps[k].Complete?
  }

  ghost predicate Ends(states: seq<State>, steps: seq<Step>, t: Trio, ms: set<Message>) {
    Run(states, steps) && NoCrash(steps) && Shows(states[|states| - 1], t, ms)
  }

  /** Some run without crashes reaches these nodes with at least the messages `ms` in the network. */
  ghost predicate Reached(t: Trio, ms: set<Message>) {
    exists states, steps {:trigger Ends(states, steps, t, ms)} :: Ends(states, steps, t, ms)
  }

  lemma Begin()
    ensures Reached(Trio(Fresh(1), Fresh(2), Fresh(3)), {})
  {
    var t := Trio(Fresh(1), Fresh(2), Fresh(3));
    var c := State(map i: Id | 1 <= i <= 3 :: Slot([], Some(Fresh(i))), {});
    assert Init(c);
    assert Run([c], []);
    forall i: Id ensures Up(c, i) && NodeAt(c, i) == t.Get(i) { }
    assert Ends([c], [], t, {});
  }

  /** Node `i` performs `a`, which takes it to `n'`; messages `ms'` are remembered from then on. */
  lemma Then(t: Trio, ms: set<Message>, i: Id, a: Action, n': Node, ms': set<Message>)
    requires Reached(t, ms) && t.Get(i).Valid()
    requires a.DoReceive? ==> a.msg in ms
    requires a.DoPropose? ==> a.data.None?
    requires Act(t.Get(i), a).node == n' && forall m :: m in ms' ==> m in ms || m in Act(t.Get(i), a).msgs
    ensures Reached(t.Set(i, n'), ms')
  {
    var states, steps :| Ends(states, steps, t, ms);
    var c := states[|states| - 1];
    assert Up(c, i);
    var e := Act(t.Get(i), a);
    var c' := State(c.slots[i := Slot(c.slots[i].wal + e.records, Some(e.node))], c.net + set m | m in e.msgs);
    assert Next(c, Complete(i, a), c');
    RunGoesOn(states, steps, Complete(i, a), c');
    forall k: Id ensures Up(c', k) && NodeAt(c', k) == t.Set(i, n').Get(k) { assert Up(c, k); }
    assert Ends(states + [c'], steps + [Complete(i, a)], t.Set(i, n'), ms');
  }

  lemma RunGoesOn(states: seq<State>, steps: seq<Step>, st: Step, c: State)
    requires Run(states, steps) && NoCrash(steps) && st.Complete? && Next(states[|states| - 1], st, c)
    ensures Run(states + [c], steps + [st]) && NoCrash(steps + [st])
  {
    var ss, ts := states + [c], steps + [st];
    forall k | 0 <= k < |ts| ensures Next(ss[k], ts[k], ss[k + 1]) {
      if k < |steps| { assert Next(states[k], steps[k], states[k + 1]); }
    }
  }

  /** The same, remembering one message of the step. */
  lemma ThenSends(t: Trio, ms: set<Message>, i: Id, a: Action, n: Node, n': Node, m: Message)
    requires Reached(t, ms) && t.Get(i) == n && n.Valid()
    requires (a.DoReceive? ==> a.msg in ms) && (a.DoPropose? ==> a.data.None?)
    requires Act(n, a).node == n' && m in Act(n, a).msgs
    ensures Reached(t.Set(i, n'), ms + {m})
  {
    Then(t, ms, i, a, n', ms + {m});
  }

  function Hear(m: Message): Action {
    DoReceive(m, false, true)
  }

  // ---------- frequent steps ----------

  /** The candidate that a pre-vote of `j` makes of `n`. */
  function CandidateOf(n: Node, j: nat): Node {
    n.(role := Candidate, term := n.term + 1, lead := 0, vote := n.id, votes := {n.id as nat},
       preVotes := {n.id as nat, j}, pendingPreVote := 0)
  }

  /** A node that asks for pre-votes for its next term. */
  function AskingOf(n: Node): Node {
    n.(role := PreCandidate, lead := 0, preVotes := {n.id as nat}, pendingPreVote := n.term + 1)
  }

  lemma Asks(n: Node, j: Id, m: Message)
    requires n.id != j && !n.role.Leader? && n.Valid() && m == PreVote(n.id, j, n.term + 1, n.Last(), n.LastLogTerm())
    ensures Act(n, DoTick(true)).node == AskingOf(n) && m in Act(n, DoTick(true)).msgs
  {
    OwnPeer(n.id, j);
    assert {} + {n.id as nat} == {n.id as nat};
  }

  /** Node `i` times out and asks for pre-votes. */
  lemma ThenAsks(t: Trio, ms: set<Message>, i: Id, j: Id, n: Node, m: Message)
    requires Reached(t, ms) && i != j && t.Get(i) == n && n.id == i && n.Valid() && !n.role.Leader?
    requires m == PreVote(i, j, n.term + 1, n.Last(), n.LastLogTerm())
    ensures Reached(t.Set(i, AskingOf(n)), ms + {m})
  {
    Asks(n, j, m);
    ThenSends(t, ms, i, DoTick(true), n, AskingOf(n), m);
  }

  /** Node `j` would vote for it. */
  lemma ThenAgrees(t: Trio, ms: set<Message>, i: Id, j: Id, m: Message)
    requires Reached(t, ms) && i != j && m in ms && t.Get(j).id == j && t.Get(j).Valid()
    requires m.PreVote? && m.from == i && m.to == j && m.term > t.Get(j).term
    requires t.Get(j).IsLogUpToDate(m.lastIndex, m.lastTerm)
    ensures Reached(t, ms + {PreVoteResponse(j, i, t.Get(j).term, true, m.term)})
  {
    ThenSends(t, ms, j, Hear(m), t.Get(j), t.Get(j), PreVoteResponse(j, i, t.Get(j).term, true, m.term));
    assert t.Set(j, t.Get(j)) == t;
  }

  lemma Stands(n: Node, j: Id, m: Message)
    requires n.id != j && m == PreVoteResponse(j, n.id, m.term, true, n.term + 1) && m.term <= n.term
    ensures HandlePreVoteResponse(AskingOf(n), m).node == CandidateOf(n, j)
    ensures RequestVote(n.id, j, n.term + 1, n.Last(), n.LastLogTerm()) in HandlePreVoteResponse(AskingOf(n), m).msgs
  {
    OwnPeer(n.id, j);
    Pair(n.id, j);
    assert {} + {n.id as nat} == {n.id as nat};
  }

  lemma Pair(i: Id, j: Id)
    requires i != j
    ensures {i as nat} + {j as nat} == {i as nat, j as nat} && |{i as nat, j as nat}| == 2
  {
  }

  /** Node `i` becomes a candidate of the next term. */
  lemma ThenStands(t: Trio, ms: set<Message>, i: Id, j: Id, m: Message, n: Node)
    requires Reached(t, ms) && i != j && m in ms && n.id == i && n.Valid() && t.Get(i) == AskingOf(n)
    requires m == PreVoteResponse(j, i, m.term, true, n.term + 1) && m.term <= n.term
    ensures Reached(t.Set(i, CandidateOf(n, j)), ms + {RequestVote(i, j, n.term + 1, n.Last(), n.LastLogTerm())})
  {
    Stands(n, j, m);
    ThenSends(t, ms, i, Hear(m), AskingOf(n), CandidateOf(n, j),
              RequestVote(i, j, n.term + 1, n.Last(), n.LastLogTerm()));
  }

  /** From a time-out to a candidacy, with the pre-vote of `j`. */
  lemma Candidacy(t: Trio, ms: set<Message>, i: Id, j: Id)
    requires Reached(t, ms) && i != j && t.Get(i).id == i && t.Get(j).id == j && t.Get(i).Valid() && t.Get(j).Valid()
    requires !t.Get(i).role.Leader? && t.Get(j).term <= t.Get(i).term
    requires t.Get(j).IsLogUpToDate(t.Get(i).Last(), t.Get(i).LastLogTerm())
    ensures var n := t.Get(i);
            Reached(t.Set(i, CandidateOf(n, j)), {RequestVote(i, j, n.term + 1, n.Last(), n.LastLogTerm())})
  {
    var n, p := t.Get(i), t.Get(j);
    var pre, yes := PreVote(i, j, n.term + 1, n.Last(), n.LastLogTerm()),
        PreVoteResponse(j, i, p.term, true, n.term + 1);
    ThenAsks(t, ms, i, j, n, pre);
    var t1 := t.Set(i, AskingOf(n));
    ThenAgrees(t1, ms + {pre}, i, j, pre);
    ThenStands(t1, ms + {pre} + {yes}, i, j, yes, n);
    assert t1.Set(i, CandidateOf(n, j)) == t.Set(i, CandidateOf(n, j));
    Forget(t.Set(i, CandidateOf(n, j)), ms + {pre} + {yes} + {RequestVote(i, j, n.term + 1, n.Last(), n.LastLogTerm())},
           {RequestVote(i, j, n.term + 1, n.Last(), n.LastLogTerm())});
  }

  lemma Forget(t: Trio, ms: set<Message>, fewer: set<Message>)
    requires Reached(t, ms) && fewer <= ms
    ensures Reached(t, fewer)
  {
    var states, steps :| Ends(states, steps, t, ms);
    assert Ends(states, steps, t, fewer);
  }

  /** The voter that `n` becomes by voting for `i` in a new term. */
  function VoterOf(n: Node, i: nat, term: nat): Node {
    n.(role := Follower, term := term, lead := 0, vote := i, readPending := false, readIndex := 0, readContext := 0,
       readAcks := {}, pendingPreVote := 0)
  }

  function LeaderOf(n: Node, j: nat): Node {
    n.(role := Leader, lead := n.id, votes := n.votes + {j},
       progress := map[Peers(n.id)[0] := Progress(0, n.Last() + 1), Peers(n.id)[1] := Progress(0, n.Last() + 1)])
  }

  lemma ThenVotes(t: Trio, ms: set<Message>, i: Id, j: Id, m: Message)
    requires Reached(t, ms) && i != j && m in ms && t.Get(j).id == j && t.Get(j).Valid()
    requires m.RequestVote? && m.from == i && m.to == j && m.term > t.Get(j).term
    requires t.Get(j).IsLogUpToDate(m.lastIndex, m.lastTerm)
    ensures Reached(t.Set(j, VoterOf(t.Get(j), i, m.term)), {RequestVoteResponse(j, i, m.term, true)})
  {
    Then(t, ms, j, Hear(m), VoterOf(t.Get(j), i, m.term), {RequestVoteResponse(j, i, m.term, true)});
  }

  lemma ThenLeads(t: Trio, ms: set<Message>, i: Id, j: Id)
    requires i != j && t.Get(i).id == i && t.Get(i).Valid() && t.Get(i).role.Candidate? && t.Get(i).votes == {i as nat}
    requires Reached(t, ms) && RequestVoteResponse(j, i, t.Get(i).term, true) in ms
    ensures Reached(t.Set(i, LeaderOf(t.Get(i), j)), {MessageFor(LeaderOf(t.Get(i), j), j)})
  {
    var n := t.Get(i);
    Pair(i, j);
    OwnPeer(i, j);
    Then(t, ms, i, Hear(RequestVoteResponse(j, i, n.term, true)), LeaderOf(n, j), {MessageFor(LeaderOf(n, j), j)});
  }

  lemma OwnPeer(i: Id, j: Id)
    requires i != j
    ensures j == Peers(i)[0] || j == Peers(i)[1]
  {
  }

  /** From a candidacy to office, with the vote of `j`. */
  lemma Election(t: Trio, i: Id, j: Id)
    requires i != j && t.Get(i).id == i && t.Get(j).id == j && t.Get(i).Valid() && t.Get(j).Valid()
    requires t.Get(i).role.Candidate? && t.Get(i).votes == {i as nat} && t.Get(j).term < t.Get(i).term
    requires t.Get(j).IsLogUpToDate(t.Get(i).Last(), t.Get(i).LastLogTerm())
    requires Reached(t, {RequestVote(i, j, t.Get(i).term, t.Get(i).Last(), t.Get(i).LastLogTerm())})
    ensures Reached(t.Set(j, VoterOf(t.Get(j), i, t.Get(i).term)).Set(i, LeaderOf(t.Get(i), j)),
                    {MessageFor(LeaderOf(t.Get(i), j), j)})
  {
    var n := t.Get(i);
    var ask := RequestVote(i, j, n.term, n.Last(), n.LastLogTerm());
    ThenVotes(t, {ask}, i, j, ask);
    var t1 := t.Set(j, VoterOf(t.Get(j), i, n.term));
    assert t1.Get(i) == n;
    ThenLeads(t1, {RequestVoteResponse(j, i, n.term, true)}, i, j);
  }

  /** A leader proposes a no-op and sends it on. */
  lemma ThenProposes(t: Trio, ms: set<Message>, i: Id)
    requires Reached(t, ms) && t.Get(i).id == i && t.Get(i).Valid() && t.Get(i).role.Leader?
    ensures var n := t.Get(i);
            var p := n.(log := n.log + [Entry(n.term, n.Last() + 1, None)]);
            Reached(t.Set(i, p), ms + {MessageFor(p, Peers(i)[0]), MessageFor(p, Peers(i)[1])})
  {
    var n := t.Get(i);
    var p := n.(log := n.log + [Entry(n.term, n.Last() + 1, None)]);
    assert Act(n, DoPropose(None)).msgs == Broadcast(p);
    Then(t, ms, i, DoPropose(None), p, ms + {MessageFor(p, Peers(i)[0]), MessageFor(p, Peers(i)[1])});
  }

  /** What a follower makes of a request that starts where its log ends. */
  function AppendedTo(n: Node, m: Message): Node
    requires m.AppendEntries?
  {
    n.(lead := m.from, log := n.log + m.entries, commit := Max(n.commit, m.leaderCommit))
  }

  lemma AppendsAtEnd(n: Node, m: Message)
    requires m.AppendEntries? && n.Accepts(m.from, m.to) && n.role.Follower? && n.term == m.term
    requires m.prevIndex == n.Last() && (m.prevIndex == 0 || n.TermAt(m.prevIndex) == m.prevTerm)
    requires n.offset <= n.commit <= n.Last() && m.leaderCommit <= m.prevIndex
    ensures HandleAppendEntries(n, m).node == AppendedTo(n, m)
    ensures HandleAppendEntries(n, m).msgs ==
            [AppendEntriesResponse(n.id, m.from, n.term, true, m.prevIndex + |m.entries|, m.context)]
  {
    var p := n.(lead := m.from);
    if |m.entries| > 0 {
      assert IsNew(p, m.prevIndex, m.entries, 0);
      assert n.log[..m.prevIndex - n.offset] + m.entries[0..] == n.log + m.entries;
    } else {
      assert n.log + m.entries == n.log;
    }
    assert FirstNew(p, m.prevIndex, m.entries, 0) == 0;
  }

  lemma ThenAppends(t: Trio, ms: set<Message>, m: Message)
    requires Reached(t, ms) && m in ms && m.AppendEntries? && IsMember(m.to) && t.Get(m.to).Valid()
    requires var n := t.Get(m.to);
             && n.id == m.to && n.Accepts(m.from, m.to) && n.role.Follower? && n.term == m.term
             && m.prevIndex == n.Last() && (m.prevIndex == 0 || n.TermAt(m.prevIndex) == m.prevTerm)
             && m.leaderCommit <= m.prevIndex
    ensures Reached(t.Set(m.to, AppendedTo(t.Get(m.to), m)),
                    ms + {AppendEntriesResponse(m.to, m.from, m.term, true, m.prevIndex + |m.entries|, m.context)})
  {
    AppendsAtEnd(t.Get(m.to), m);
    Then(t, ms, m.to, Hear(m), AppendedTo(t.Get(m.to), m),
         ms + {AppendEntriesResponse(m.to, m.from, m.term, true, m.prevIndex + |m.entries|, m.context)});
  }

  /** The request starts where the follower's log ends. */
  predicate Follows(n: Node, m: Message) {
    && m.AppendEntries? && n.Valid() && n.id == m.to && n.Accepts(m.from, m.to) && n.role.Follower? && n.term == m.term
    && m.prevIndex == n.Last() && (m.prevIndex == 0 || n.TermAt(m.prevIndex) == m.prevTerm)
    && m.leaderCommit <= m.prevIndex
  }

  /** As `ThenAppends`, for given results. */
  lemma Appended(t: Trio, ms: set<Message>, i: Id, n: Node, m: Message, n': Node, ack: Message, ms': set<Message>)
    requires Reached(t, ms) && m in ms && t.Get(i) == n && i == n.id && Follows(n, m) && n' == AppendedTo(n, m)
    requires ack == AppendEntriesResponse(m.to, m.from, m.term, true, m.prevIndex + |m.entries|, m.context)
    requires ms' <= ms + {ack}
    ensures Reached(t.Set(i, n'), ms')
  {
    ThenAppends(t, ms, m);
    Forget(t.Set(i, n'), ms + {ack}, ms');
  }

  lemma Appended3(n1: Node, n2: Node, n: Node, m: Message, n': Node, ack: Message)
    requires Reached(Trio(n1, n2, n), {m}) && n.id == 3 && Follows(n, m) && n' == AppendedTo(n, m)
    requires ack == AppendEntriesResponse(m.to, m.from, m.term, true, m.prevIndex + |m.entries|, m.context)
    ensures Reached(Trio(n1, n2, n'), {ack})
  {
    Appended(Trio(n1, n2, n), {m}, 3, n, m, n', ack, {ack});
  }

  /** What an acknowledgment of its whole log, or of nothing new, makes of a leader. */
  function AckedBy(n: Node, m: Message): Node
    requires m.AppendEntriesResponse?
  {
    n.(progress := n.progress[m.from := Progress(m.matchIndex, m.matchIndex + 1)],
       readAcks := if n.readPending && m.context != 0 && m.context == n.readContext then n.readAcks + {m.from}
           else n.readAcks,
       commit := n.Last())
  }

  lemma ThenCommits(t: Trio, ms: set<Message>, i: Id, m: Message)
    requires Reached(t, ms) && m in ms && m.AppendEntriesResponse? && m.success && m.to == i && t.Get(i).Valid()
    requires var n := t.Get(i);
             && n.id == i && n.role.Leader? && n.Accepts(m.from, m.to) && n.term == m.term && n.Last() > n.offset
             && (n.commit == n.Last() || (m.matchIndex == n.Last() && n.LastLogTerm() == n.term))
    ensures Reached(t.Set(i, AckedBy(t.Get(i), m)), ms)
  {
    var n := t.Get(i);
    var p := AckedBy(n, m).(commit := n.commit);
    if n.commit < n.Last() {
      assert p.progress[m.from].match_ >= n.Last();
      assert Committable(p, n.Last());
    }
    assert HighestCommittable(p, p.Last()) == n.Last();
    Then(t, ms, i, Hear(m), AckedBy(n, m), ms);
  }

  function ReadingOf(n: Node): Node {
    n.(readPending := true, readIndex := n.commit, readContext := n.nextContext, nextContext := n.nextContext + 1,
       readAcks := {})
  }

  /** A leader that has committed in its term opens a quorum round. */
  lemma ThenReads(t: Trio, i: Id, j: Id, p: Node, m: Message)
    requires Reached(t, {}) && i != j && t.Get(i).id == i && t.Get(i).Valid()
    requires t.Get(i).role.Leader? && !t.Get(i).readPending && t.Get(i).CommittedInTerm()
    requires p == ReadingOf(t.Get(i)) && MessageFor(p, j) == m
    ensures Reached(t.Set(i, p), {m})
  {
    OpenedShape(t.Get(i));
    OwnPeer(i, j);
    assert Opened(t.Get(i)) == p;
    Then(t, {}, i, DoReadIndex, p, {m});
  }

  /** Candidate `i` can win with the vote of `j`, asked for by `ask`. */
  ghost predicate Electable(t: Trio, i: Id, j: Id, ask: Message) {
    var n, p := t.Get(i), t.Get(j);
    && i != j && n.id == i && p.id == j && n.Valid() && p.Valid()
    && n.role.Candidate? && n.votes == {i as nat} && p.term < n.term && p.IsLogUpToDate(n.Last(), n.LastLogTerm())
    && ask == RequestVote(i, j, n.term, n.Last(), n.LastLogTerm())
  }

  /** As `Election`, for given results. */
  lemma Elected(t: Trio, i: Id, j: Id, ask: Message, leader: Node, voter: Node, m: Message)
    requires Reached(t, {ask}) && Electable(t, i, j, ask)
    requires leader == LeaderOf(t.Get(i), j) && voter == VoterOf(t.Get(j), i, t.Get(i).term)
    requires m == MessageFor(leader, j)
    ensures Reached(t.Set(j, voter).Set(i, leader), {m}) && Reached(t.Set(j, voter).Set(i, leader), {})
  {
    Election(t, i, j);
    Forget(t.Set(j, voter).Set(i, leader), {m}, {});
  }
}
