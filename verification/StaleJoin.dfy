/** What joining a pending round does not give.

    `JoinedReadMissesCommit` is a run in which a read joins a round that was confirmed while the
    node still led; before the read, another node was elected and committed an entry.  The round
    is then reported ready although that entry is not applied: the token is as fresh as the
    opening of the round (`Reads.ReadFreshness`), not as fresh as the call that obtained it.
 */
module StaleJoin {
  import opened Proto
  import opened RaftNode
  import opened Replay
  import opened Cluster
  import opened Effects
  import opened Runs
  import opened Counterexample

  const G2 := Entry(2, 2, None)

  /** Node 1, leader of term 1, with its first entry committed. */
  function Reader1(acks: set<nat>): Node {
    Leader1([E1], 1).(progress := map[2 := Progress(1, 2), 3 := BEHIND], readPending := true, readIndex := 1,
                      readContext := 1, nextContext := 2, readAcks := acks)
  }

  function Committed1(): Node {
    Leader1([E1], 1).(progress := map[2 := Progress(1, 2), 3 := BEHIND])
  }

  function Confirmer2(): Node {
    FollowerAt(2, 1, [E1]).(commit := 1)
  }

  function Voter2(log: Log): Node {
    Confirmer2().(term := 2, vote := 3, lead := 0, log := log)
  }

  function Candidate3(): Node {
    FollowerAt(3, 3, [E1]).(role := Candidate, term := 2, lead := 0, votes := {3}, preVotes := {2, 3})
  }

  function Leader3(log: Log, commit: nat): Node {
    Candidate3().(role := Leader, lead := 3, votes := {2, 3},
                  progress := map[1 := Progress(0, 2), 2 := if commit == 0 then Progress(0, 2) else Progress(2, 3)],
                  log := log, commit := commit)
  }

  lemma EntryFollows(n: Node, m: Message)
    requires n == FollowerAt(2, 1, []) && m == AppendEntries(1, 2, 1, 0, 0, [E1], 0, 0)
    ensures Follows(n, m) && AppendedTo(n, m) == FollowerAt(2, 1, [E1])
  {
    assert n.log + m.entries == [E1];
  }

  /** Node 2 acknowledges node 1's first entry, which node 3 has too. */
  lemma FirstEntry()
    ensures Reached(Trio(Leader1([E1], 0), FollowerAt(2, 1, [E1]), FollowerAt(3, 0, [E1])),
                    {AppendEntriesResponse(2, 1, 1, true, 1, 0)})
  {
    EntryAt3();
    var to2, n2, ack := AppendEntries(1, 2, 1, 0, 0, [E1], 0, 0), FollowerAt(2, 1, []),
        AppendEntriesResponse(2, 1, 1, true, 1, 0);
    EntryFollows(n2, to2);
    Appended(Trio(Leader1([E1], 0), n2, FollowerAt(3, 0, [E1])), {STALE_ACK, to2}, 2, n2, to2, FollowerAt(2, 1, [E1]),
             ack, {ack});
  }

  /** Node 1 commits the entry. */
  lemma EntryCommitted()
    ensures Reached(Trio(Committed1(), FollowerAt(2, 1, [E1]), FollowerAt(3, 0, [E1])), {})
  {
    FirstEntry();
    var ack, t := AppendEntriesResponse(2, 1, 1, true, 1, 0),
        Trio(Leader1([E1], 0), FollowerAt(2, 1, [E1]), FollowerAt(3, 0, [E1]));
    ThenCommits(t, {ack}, 1, ack);
    assert Leader1([E1], 0).progress[2 := Progress(1, 2)] == Committed1().progress;
    assert AckedBy(Leader1([E1], 0), ack) == Committed1();
    Forget(t.Set(1, Committed1()), {ack}, {});
  }

  lemma FirstBeat()
    ensures MessageFor(Reader1({}), 2) == AppendEntries(1, 2, 1, 1, 1, [], 1, 1)
  {
    var n := Reader1({});
    assert n.ProgressOf(2) == Progress(1, 2);
    assert n.log[1 - n.offset..] == [];
  }

  lemma FirstRound()
    ensures ReadingOf(Committed1()) == Reader1({}) && Committed1().CommittedInTerm() && Committed1().Valid()
  {
    assert Committed1().TermAt(1) == 1;
  }

  /** And opens a round. */
  lemma RoundOpened()
    ensures Reached(Trio(Reader1({}), FollowerAt(2, 1, [E1]), FollowerAt(3, 0, [E1])),
                    {AppendEntries(1, 2, 1, 1, 1, [], 1, 1)})
  {
    EntryCommitted();
    FirstBeat();
    FirstRound();
    ThenReads(Trio(Committed1(), FollowerAt(2, 1, [E1]), FollowerAt(3, 0, [E1])), 1, 2, Reader1({}),
              AppendEntries(1, 2, 1, 1, 1, [], 1, 1));
  }

  lemma BeatFollows(n: Node, m: Message)
    requires n == FollowerAt(2, 1, [E1]) && m == AppendEntries(1, 2, 1, 1, 1, [], 1, 1)
    ensures Follows(n, m) && AppendedTo(n, m) == Confirmer2()
  {
    assert n.log + m.entries == [E1];
  }

  /** Node 2 confirms the round. */
  lemma RoundAnswered()
    ensures Reached(Trio(Reader1({}), Confirmer2(), FollowerAt(3, 0, [E1])),
                    {AppendEntriesResponse(2, 1, 1, true, 1, 1)})
  {
    RoundOpened();
    var beat, n2, ack := AppendEntries(1, 2, 1, 1, 1, [], 1, 1), FollowerAt(2, 1, [E1]),
        AppendEntriesResponse(2, 1, 1, true, 1, 1);
    BeatFollows(n2, beat);
    Appended(Trio(Reader1({}), n2, FollowerAt(3, 0, [E1])), {beat}, 2, n2, beat, Confirmer2(), ack, {ack});
  }

  /** The confirmation arrives before node 1 has applied its entry. */
  lemma RoundConfirmed()
    ensures Reached(Trio(Reader1({2}), Confirmer2(), FollowerAt(3, 0, [E1])), {})
  {
    RoundAnswered();
    var ack, t := AppendEntriesResponse(2, 1, 1, true, 1, 1), Trio(Reader1({}), Confirmer2(), FollowerAt(3, 0, [E1]));
    ThenCommits(t, {ack}, 1, ack);
    assert Reader1({}).progress[2 := Progress(1, 2)] == Reader1({2}).progress;
    assert {} + {2 as nat} == {2};
    assert AckedBy(Reader1({}), ack) == Reader1({2});
    Forget(t.Set(1, Reader1({2})), {ack}, {});
  }

  /** Node 3 stands for term 2 with node 2's pre-vote. */
  lemma Challenger()
    ensures Reached(Trio(Reader1({2}), Confirmer2(), Candidate3()), {RequestVote(3, 2, 2, 1, 1)})
  {
    RoundConfirmed();
    Candidacy(Trio(Reader1({2}), Confirmer2(), FollowerAt(3, 0, [E1])), {}, 3, 2);
    assert CandidateOf(FollowerAt(3, 0, [E1]), 2) == Candidate3();
  }

  lemma Office3()
    ensures LeaderOf(Candidate3(), 2) == Leader3([E1], 0) && VoterOf(Confirmer2(), 3, 2) == Voter2([E1])
  {
    assert {3 as nat} + {2 as nat} == {2, 3};
  }

  lemma Electable3()
    ensures Electable(Trio(Reader1({2}), Confirmer2(), Candidate3()), 3, 2, RequestVote(3, 2, 2, 1, 1))
  {
  }

  /** Node 3 wins. */
  lemma Deposed()
    ensures Reached(Trio(Reader1({2}), Voter2([E1]), Leader3([E1], 0)), {})
  {
    Challenger();
    Electable3();
    Office3();
    Elected(Trio(Reader1({2}), Confirmer2(), Candidate3()), 3, 2, RequestVote(3, 2, 2, 1, 1), Leader3([E1], 0),
            Voter2([E1]),
            MessageFor(Leader3([E1], 0), 2));
  }

  /** Node 3 proposes an entry. */
  lemma NewLeader()
    ensures Reached(Trio(Reader1({2}), Voter2([E1]), Leader3([E1, G2], 0)), {AppendEntries(3, 2, 2, 1, 1, [G2], 0, 0)})
  {
    Deposed();
    ThenProposes(Trio(Reader1({2}), Voter2([E1]), Leader3([E1], 0)), {}, 3);
    assert [E1] + [G2] == [E1, G2];
    var n := Leader3([E1, G2], 0);
    assert MessageFor(n, 2) == AppendEntries(3, 2, 2, 1, 1, [G2], 0, 0);
    Forget(Trio(Reader1({2}), Voter2([E1]), n), {} + {MessageFor(n, 1), MessageFor(n, 2)},
           {AppendEntries(3, 2, 2, 1, 1, [G2], 0, 0)});
  }

  lemma NewFollows(n: Node, m: Message)
    requires n == Voter2([E1]) && m == AppendEntries(3, 2, 2, 1, 1, [G2], 0, 0)
    ensures Follows(n, m) && AppendedTo(n, m) == Voter2([E1, G2]).(lead := 3)
  {
    assert n.log + m.entries == [E1, G2];
  }

  /** Node 2 acknowledges it. */
  lemma NewEntry()
    ensures Reached(Trio(Reader1({2}), Voter2([E1, G2]).(lead := 3), Leader3([E1, G2], 0)),
                    {AppendEntriesResponse(2, 3, 2, true, 2, 0)})
  {
    NewLeader();
    var append, ack := AppendEntries(3, 2, 2, 1, 1, [G2], 0, 0), AppendEntriesResponse(2, 3, 2, true, 2, 0);
    NewFollows(Voter2([E1]), append);
    Appended(Trio(Reader1({2}), Voter2([E1]), Leader3([E1, G2], 0)), {append}, 2, Voter2([E1]), append,
             Voter2([E1, G2]).(lead := 3), ack, {ack});
  }

  /** Node 3 commits it. */
  lemma NewCommit()
    ensures Reached(Trio(Reader1({2}), Voter2([E1, G2]).(lead := 3), Leader3([E1, G2], 2)), {})
  {
    NewEntry();
    var ack, t := AppendEntriesResponse(2, 3, 2, true, 2, 0),
        Trio(Reader1({2}), Voter2([E1, G2]).(lead := 3), Leader3([E1, G2], 0));
    ThenCommits(t, {ack}, 3, ack);
    assert Leader3([E1, G2], 0).progress[2 := Progress(2, 3)] == Leader3([E1, G2], 2).progress;
    assert AckedBy(Leader3([E1, G2], 0), ack) == Leader3([E1, G2], 2);
    Forget(t.Set(3, Leader3([E1, G2], 2)), {ack}, {});
  }

  /** A crash-free run without snapshots in which a read joins a pending round when node 3 has
      index 2 committed, and its token is ready when only index 1 is applied. */
  lemma JoinedReadMissesCommit() returns (states: seq<State>, steps: seq<Step>, j: nat)
    ensures CarefulRun(states, steps) && NoCrash(steps)
    ensures j + 2 == |steps| && steps[j] == Complete(1, DoReadIndex)
    ensures Up(states[j], 1) && NodeAt(states[j], 1).role.Leader? && NodeAt(states[j], 1).readPending
    ensures ReadIndex(NodeAt(states[j], 1)).token.Some?
    ensures Up(states[j], 3) && NodeAt(states[j], 3).commit == 2
    ensures Up(states[j + 2], 1) && NodeAt(states[j + 2], 1).applied == 1
    ensures ReadIndexReady(NodeAt(states[j + 2], 1), ReadIndex(NodeAt(states[j], 1)).token.value)
  {
    NewCommit();
    var t := Trio(Reader1({2}), Voter2([E1, G2]).(lead := 3), Leader3([E1, G2], 2));
    states, steps :| Ends(states, steps, t, {});
    j := |steps|;
    var c := states[j];
    assert Up(c, 1) && Up(c, 2) && Up(c, 3);
    states, steps := JoinAndApply(states, steps, Reader1({2}));
    ReaderReady();
    forall i: Id ensures Up(states[|steps|], i) && NodeAt(states[|steps|], i).offset == 0 {
      assert Up(c, i) && NodeAt(c, i) == t.Get(i);
    }
    CarefulIfUncompacted(states, steps);
  }

  lemma OffsetStays(n: Node, a: Action)
    requires n.Valid() && n.offset > 0
    ensures Act(n, a).node.offset > 0
  {
    if !a.DoTakeSnapshot? { ActSourced(n, a); }
  }

  lemma {:induction false} CompactedStays(states: seq<State>, steps: seq<Step>, i: Id, j: nat, k: nat)
    requires Run(states, steps) && NoCrash(steps) && j <= k < |states|
    requires Up(states[j], i) && NodeAt(states[j], i).offset > 0
    ensures Up(states[k], i) && NodeAt(states[k], i).offset > 0
    decreases k
  {
    if j < k {
      CompactedStays(states, steps, i, j, k - 1);
      assert Next(states[k - 1], steps[k - 1], states[k - 1 + 1]);
      if steps[k - 1].id == i { OffsetStays(NodeAt(states[k - 1], i), steps[k - 1].action); }
    }
  }

  /** A crash-free run at whose end no node has a snapshot never installed one. */
  lemma CarefulIfUncompacted(states: seq<State>, steps: seq<Step>)
    requires Run(states, steps) && NoCrash(steps)
    requires forall i: Id {:trigger Up(states[|steps|], i)} ::
               Up(states[|steps|], i) && NodeAt(states[|steps|], i).offset == 0
    ensures CarefulRun(states, steps)
  {
    forall k | 0 <= k < |steps| ensures Careful(states[k], steps[k]) {
      assert Next(states[k], steps[k], states[k + 1]);
      assert Up(states[|steps|], steps[k].id);
      if !Careful(states[k], steps[k]) {
        InstallCompacts(NodeAt(states[k], steps[k].id), steps[k].action);
        CompactedStays(states, steps, steps[k].id, k + 1, |steps|);
      }
    }
  }

  lemma InstallCompacts(n: Node, a: Action)
    requires n.Valid() && IsInstall(n, a)
    ensures Act(n, a).node.offset > 0
  {
    InstallMoves(n, a);
  }

  lemma ReaderReady()
    ensures ReadIndex(Reader1({2})) == ReadStart(Effect(Reader1({2}), [], []), Some(ReadToken(1, 1)))
    ensures ReadIndexReady(Reader1({2}).(applied := 1), ReadToken(1, 1))
  {
    assert Reader1({2}).(applied := 1).TermAt(1) == 1;
  }

  lemma NodeTurn(c: State, n: Node, a: Action, n': Node) returns (c': State)
    requires Up(c, 1) && NodeAt(c, 1) == n && n.Valid() && !a.DoReceive? && !a.DoPropose?
    requires Act(n, a) == Effect(n', [], [])
    ensures Next(c, Complete(1, a), c') && Up(c', 1) && NodeAt(c', 1) == n'
    ensures forall k: Id :: k != 1 && k in c.slots ==> k in c'.slots && c'.slots[k] == c.slots[k]
  {
    c' := State(c.slots[1 := Slot(c.slots[1].wal + [], Some(n'))], c.net + set m | m in Act(n, a).msgs);
  }

  /** The run goes on with a read that joins the pending round, and the first entry being applied. */
  lemma JoinAndApply(states: seq<State>, steps: seq<Step>, n: Node) returns (states': seq<State>, steps': seq<Step>)
    requires Run(states, steps) && NoCrash(steps) && Up(states[|steps|], 1) && NodeAt(states[|steps|], 1) == n
    requires n.Valid() && n.role.Leader? && n.readPending && n.applied == 0 < n.commit
    ensures Run(states', steps') && NoCrash(steps') && |steps'| == |steps| + 2 && states <= states'
    ensures forall k: Id :: k != 1 && k in states[|steps|].slots ==>
              k in states'[|steps| + 2].slots && states'[|steps| + 2].slots[k] == states[|steps|].slots[k]
    ensures steps'[|steps|] == Complete(1, DoReadIndex)
    ensures Up(states'[|steps| + 2], 1) && NodeAt(states'[|steps| + 2], 1) == n.(applied := 1)
  {
    var c := states[|steps|];
    var c1 := NodeTurn(c, n, DoReadIndex, n);
    var c2 := NodeTurn(c1, n, DoAdvance(1), n.(applied := 1));
    states', steps' := states + [c1, c2], steps + [Complete(1, DoReadIndex), Complete(1, DoAdvance(1))];
    forall k | 0 <= k < |steps'| ensures Next(states'[k], steps'[k], states'[k + 1]) {
      if k < |steps| { assert Next(states[k], steps[k], states[k + 1]); }
    }
  }
}
