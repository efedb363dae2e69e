/** Why the cluster theorems need the snapshot guard, and exactly what the code does instead
    of what section 7 of the extended Raft paper prescribes.

    `CommittedEntryLost` is a run of three healthy nodes, without any crash, at whose end two
    nodes have committed different entries at index 2.  A delayed acknowledgement makes the
    leader send a snapshot to a follower that already holds more; installing it drops an entry
    that the follower had acknowledged and the leader had committed on that acknowledgement.
 */
module Counterexample {
  import opened Proto
  import opened RaftNode
  import opened Replay
  import opened Cluster
  import opened Runs

  // ---------- the code against the paper ----------

  /** Section 7 of the paper: keep what follows the snapshot's last entry if the log has that entry. */
  function PaperLog(n: Node, m: Message): Log
    requires m.InstallSnapshot?
  {
    if n.offset < m.snapIndex <= n.Last() && n.TermAt(m.snapIndex) == m.snapTerm then n.log[m.snapIndex - n.offset..]
    else []
  }

  /** The installed log is the one the paper prescribes if and only if the receiver's log does
      not go beyond the snapshot in agreement with it. */
  lemma InstallFollowsPaper(n: Node, m: Message)
    requires n.Valid() && m.InstallSnapshot? && Installs(n, m, true)
    ensures HandleInstallSnapshot(n, m, true).node.log == PaperLog(n, m) <==> !DropsSuffix(n, m)
  {
    var r := PrepareForLeaderRpc(n, m.from, m.to, m.term);
    assert r.ok && r.node.log == n.log && r.node.offset == n.offset && r.node.commit == n.commit;
    assert HandleInstallSnapshot(n, m, true).node.log == [];
    if DropsSuffix(n, m) { assert |PaperLog(n, m)| > 0; }
  }

  // ---------- the nodes along the run ----------

  const E1 := Entry(1, 1, None)
  const E2 := Entry(1, 2, None)
  const F2 := Entry(2, 2, None)
  const BEHIND := Progress(0, 1)
  const EMPTY_STORE: Option<Store> := Some(map[])

  function Candidate1(): Node {
    Fresh(1).(role := Candidate, term := 1, vote := 1, votes := {1}, preVotes := {1, 2})
  }

  function Leader1(log: Log, commit: nat): Node {
    Candidate1().(role := Leader, lead := 1, votes := {1, 2}, progress := map[2 := BEHIND, 3 := BEHIND],
                  log := log, commit := commit)
  }

  function FollowerAt(i: Id, vote: nat, log: Log): Node {
    Fresh(i).(term := 1, vote := vote, lead := 1, log := log)
  }

  function Caught1(): Node {
    Leader1([E1, E2], 2).(progress := map[2 := Progress(2, 3), 3 := BEHIND])
  }

  function Compacted1(): Node {
    Leader1([E2], 2).(applied := 1, offset := 1, offsetTerm := 1, snapData := EMPTY_STORE)
  }

  function Installed2(): Node {
    FollowerAt(2, 1, []).(offset := 1, offsetTerm := 1, snapData := EMPTY_STORE, applied := 1, commit := 1)
  }

  function Candidate2(): Node {
    Installed2().(role := Candidate, term := 2, vote := 2, lead := 0, votes := {2}, preVotes := {2, 3})
  }

  function Leader2(log: Log, commit: nat): Node {
    Candidate2().(role := Leader, lead := 2, votes := {2, 3},
                  progress := map[1 := Progress(0, 2), 3 := if commit == 1 then Progress(0, 2) else Progress(2, 3)],
                  log := log, commit := commit)
  }

  function Voter3(): Node {
    FollowerAt(3, 2, [E1]).(term := 2, lead := 0)
  }

  /** Node 2's answer to the first heartbeat, delivered late. */
  const STALE_ACK := AppendEntriesResponse(2, 1, 1, true, 0, 0)

  lemma FirstOffice()
    ensures LeaderOf(Candidate1(), 2) == Leader1([], 0)
    ensures VoterOf(Fresh(2), 1, 1) == FollowerAt(2, 1, []).(lead := 0)
    ensures MessageFor(Leader1([], 0), 2) == AppendEntries(1, 2, 1, 0, 0, [], 0, 0)
  {
    assert {1 as nat} + {2 as nat} == {1, 2};
  }

  lemma FirstElectable()
    ensures Electable(Trio(Candidate1(), Fresh(2), Fresh(3)), 1, 2, RequestVote(1, 2, 1, 0, 0))
  {
  }

  /** Node 1 stands for term 1 with node 2's pre-vote. */
  lemma FirstCandidacy()
    ensures Reached(Trio(Candidate1(), Fresh(2), Fresh(3)), {RequestVote(1, 2, 1, 0, 0)})
  {
    Begin();
    Candidacy(Trio(Fresh(1), Fresh(2), Fresh(3)), {}, 1, 2);
    assert CandidateOf(Fresh(1), 2) == Candidate1();
  }

  /** And wins. */
  lemma FirstLeader()
    ensures Reached(Trio(Leader1([], 0), FollowerAt(2, 1, []).(lead := 0), Fresh(3)),
                    {AppendEntries(1, 2, 1, 0, 0, [], 0, 0)})
  {
    FirstCandidacy();
    FirstElectable();
    FirstOffice();
    Elected(Trio(Candidate1(), Fresh(2), Fresh(3)), 1, 2, RequestVote(1, 2, 1, 0, 0), Leader1([], 0),
            FollowerAt(2, 1, []).(lead := 0), AppendEntries(1, 2, 1, 0, 0, [], 0, 0));
  }

  lemma FirstAnswer(n: Node, m: Message)
    requires n == FollowerAt(2, 1, []).(lead := 0) && m == AppendEntries(1, 2, 1, 0, 0, [], 0, 0)
    ensures Follows(n, m) && AppendedTo(n, m) == FollowerAt(2, 1, [])
  {
    assert n.log + m.entries == [];
  }

  /** Node 2 answers the first, empty heartbeat. */
  lemma FirstElection()
    ensures Reached(Trio(Leader1([], 0), FollowerAt(2, 1, []), Fresh(3)), {STALE_ACK})
  {
    FirstLeader();
    var beat, n2 := AppendEntries(1, 2, 1, 0, 0, [], 0, 0), FollowerAt(2, 1, []).(lead := 0);
    FirstAnswer(n2, beat);
    Appended(Trio(Leader1([], 0), n2, Fresh(3)), {beat}, 2, n2, beat, FollowerAt(2, 1, []), STALE_ACK, {STALE_ACK});
  }

  /** Node 1 proposes an entry. */
  lemma OneEntry()
    ensures Reached(Trio(Leader1([E1], 0), FollowerAt(2, 1, []), Fresh(3)),
                    {STALE_ACK, AppendEntries(1, 2, 1, 0, 0, [E1], 0, 0), AppendEntries(1, 3, 1, 0, 0, [E1], 0, 0)})
  {
    FirstElection();
    var t := Trio(Leader1([], 0), FollowerAt(2, 1, []), Fresh(3));
    ThenProposes(t, {STALE_ACK}, 1);
    assert [] + [E1] == [E1];
    assert MessageFor(Leader1([E1], 0), 2) == AppendEntries(1, 2, 1, 0, 0, [E1], 0, 0);
    assert MessageFor(Leader1([E1], 0), 3) == AppendEntries(1, 3, 1, 0, 0, [E1], 0, 0);
    var ms := {STALE_ACK} + {MessageFor(Leader1([E1], 0), 2), MessageFor(Leader1([E1], 0), 3)};
    Forget(Trio(Leader1([E1], 0), FollowerAt(2, 1, []), Fresh(3)), ms,
           {STALE_ACK, AppendEntries(1, 2, 1, 0, 0, [E1], 0, 0), AppendEntries(1, 3, 1, 0, 0, [E1], 0, 0)});
  }

  /** Node 3 in term 0 takes over the term with the entry. */
  lemma JoinsTerm(m: Message)
    requires m == AppendEntries(1, 3, 1, 0, 0, [E1], 0, 0)
    ensures HandleAppendEntries(Fresh(3), m).node == FollowerAt(3, 0, [E1])
  {
    var p := Fresh(3).(term := 1, lead := 1);
    assert PrepareForLeaderRpc(Fresh(3), 1, 3, 1) == Prepared(true, p, SaveHardState(p));
    AppendsAtEnd(p, m);
    assert HandleAppendEntries(p, m).node == AppendPrepared(p, m).node;
    assert [] + [E1] == [E1];
  }

  /** It reaches node 3. */
  lemma EntryAt3()
    ensures Reached(Trio(Leader1([E1], 0), FollowerAt(2, 1, []), FollowerAt(3, 0, [E1])),
                    {STALE_ACK, AppendEntries(1, 2, 1, 0, 0, [E1], 0, 0)})
  {
    OneEntry();
    var to2, to3 := AppendEntries(1, 2, 1, 0, 0, [E1], 0, 0), AppendEntries(1, 3, 1, 0, 0, [E1], 0, 0);
    JoinsTerm(to3);
    Then(Trio(Leader1([E1], 0), FollowerAt(2, 1, []), Fresh(3)), {STALE_ACK, to2, to3}, 3, Hear(to3),
         FollowerAt(3, 0, [E1]), {STALE_ACK, to2});
  }

  /** Node 1 proposes a second entry. */
  lemma TwoEntries()
    ensures Reached(Trio(Leader1([E1, E2], 0), FollowerAt(2, 1, []), FollowerAt(3, 0, [E1])),
                    {STALE_ACK, AppendEntries(1, 2, 1, 0, 0, [E1, E2], 0, 0)})
  {
    EntryAt3();
    var to2 := AppendEntries(1, 2, 1, 0, 0, [E1], 0, 0);
    ThenProposes(Trio(Leader1([E1], 0), FollowerAt(2, 1, []), FollowerAt(3, 0, [E1])), {STALE_ACK, to2}, 1);
    assert [E1] + [E2] == [E1, E2];
    var n := Leader1([E1, E2], 0);
    assert MessageFor(n, 2) == AppendEntries(1, 2, 1, 0, 0, [E1, E2], 0, 0);
    Forget(Trio(n, FollowerAt(2, 1, []), FollowerAt(3, 0, [E1])),
           {STALE_ACK, to2} + {MessageFor(n, 2), MessageFor(n, 3)},
           {STALE_ACK, AppendEntries(1, 2, 1, 0, 0, [E1, E2], 0, 0)});
  }

  lemma BothFollow(n: Node, m: Message)
    requires n == FollowerAt(2, 1, []) && m == AppendEntries(1, 2, 1, 0, 0, [E1, E2], 0, 0)
    ensures Follows(n, m) && AppendedTo(n, m) == FollowerAt(2, 1, [E1, E2])
  {
    assert n.log + m.entries == [E1, E2];
  }

  /** Node 2 acknowledges both entries. */
  lemma BothAcknowledged()
    ensures Reached(Trio(Leader1([E1, E2], 0), FollowerAt(2, 1, [E1, E2]), FollowerAt(3, 0, [E1])),
                    {STALE_ACK, AppendEntriesResponse(2, 1, 1, true, 2, 0)})
  {
    TwoEntries();
    var to2, n2, ack := AppendEntries(1, 2, 1, 0, 0, [E1, E2], 0, 0), FollowerAt(2, 1, []),
        AppendEntriesResponse(2, 1, 1, true, 2, 0);
    BothFollow(n2, to2);
    Appended(Trio(Leader1([E1, E2], 0), n2, FollowerAt(3, 0, [E1])), {STALE_ACK, to2}, 2, n2, to2,
             FollowerAt(2, 1, [E1, E2]), ack,
             {STALE_ACK, ack});
  }

  /** Node 1 commits both. */
  lemma FirstCommit()
    ensures Reached(Trio(Caught1(), FollowerAt(2, 1, [E1, E2]), FollowerAt(3, 0, [E1])), {STALE_ACK})
  {
    BothAcknowledged();
    var ack, t := AppendEntriesResponse(2, 1, 1, true, 2, 0),
        Trio(Leader1([E1, E2], 0), FollowerAt(2, 1, [E1, E2]), FollowerAt(3, 0, [E1]));
    ThenCommits(t, {STALE_ACK, ack}, 1, ack);
    assert Leader1([E1, E2], 0).progress[2 := Progress(2, 3)] == Caught1().progress;
    assert AckedBy(Leader1([E1, E2], 0), ack) == Caught1();
    Forget(t.Set(1, Caught1()), {STALE_ACK, ack}, {STALE_ACK});
  }

  /** Node 1 applies and compacts the first entry. */
  lemma FirstSnapshot()
    ensures Reached(Trio(Compacted1().(progress := map[2 := Progress(2, 3), 3 := BEHIND]),
                         FollowerAt(2, 1, [E1, E2]), FollowerAt(3, 0, [E1])), {STALE_ACK})
  {
    FirstCommit();
    var n2, n3, n1 := FollowerAt(2, 1, [E1, E2]), FollowerAt(3, 0, [E1]), Caught1().(applied := 1);
    Then(Trio(Caught1(), n2, n3), {STALE_ACK}, 1, DoAdvance(1), n1, {STALE_ACK});
    Then(Trio(n1, n2, n3), {STALE_ACK}, 1, DoTakeSnapshot(1, EMPTY_STORE),
         Compacted1().(progress := map[2 := Progress(2, 3), 3 := BEHIND]), {STALE_ACK});
  }

  /** The delayed answer to its first heartbeat sets node 1's record of node 2 back. */
  lemma ProgressLost()
    ensures Reached(Trio(Compacted1(), FollowerAt(2, 1, [E1, E2]), FollowerAt(3, 0, [E1])), {STALE_ACK})
  {
    FirstSnapshot();
    var n1 := Compacted1().(progress := map[2 := Progress(2, 3), 3 := BEHIND]);
    ThenCommits(Trio(n1, FollowerAt(2, 1, [E1, E2]), FollowerAt(3, 0, [E1])), {STALE_ACK}, 1, STALE_ACK);
    assert n1.progress[2 := Progress(0, 1)] == Compacted1().progress;
    assert AckedBy(n1, STALE_ACK) == Compacted1();
  }

  /** So it sends node 2 the snapshot. */
  lemma SnapshotSent()
    ensures Reached(Trio(Compacted1(), FollowerAt(2, 1, [E1, E2]), FollowerAt(3, 0, [E1])),
                    {InstallSnapshot(1, 2, 1, 1, 1, EMPTY_STORE)})
  {
    ProgressLost();
    var n2, n3, snap := FollowerAt(2, 1, [E1, E2]), FollowerAt(3, 0, [E1]), InstallSnapshot(1, 2, 1, 1, 1, EMPTY_STORE);
    assert MessageFor(Compacted1(), 2) == snap;
    Then(Trio(Compacted1(), n2, n3), {STALE_ACK}, 1, DoTick(true), Compacted1(), {snap});
  }

  /** Node 2 installs it and drops its second entry. */
  lemma SuffixDropped()
    ensures Reached(Trio(Compacted1(), Installed2(), FollowerAt(3, 0, [E1])), {})
  {
    SnapshotSent();
    var n2, n3, snap := FollowerAt(2, 1, [E1, E2]), FollowerAt(3, 0, [E1]), InstallSnapshot(1, 2, 1, 1, 1, EMPTY_STORE);
    Then(Trio(Compacted1(), n2, n3), {snap}, 2, Hear(snap), Installed2(), {});
  }

  /** Node 2 stands for term 2 with node 3's pre-vote. */
  lemma SecondCandidacy()
    ensures Reached(Trio(Compacted1(), Candidate2(), FollowerAt(3, 0, [E1])), {RequestVote(2, 3, 2, 1, 1)})
  {
    SuffixDropped();
    Candidacy(Trio(Compacted1(), Installed2(), FollowerAt(3, 0, [E1])), {}, 2, 3);
    assert CandidateOf(Installed2(), 3) == Candidate2();
  }

  lemma SecondOffice()
    ensures LeaderOf(Candidate2(), 3) == Leader2([], 1) && VoterOf(FollowerAt(3, 0, [E1]), 2, 2) == Voter3()
  {
    assert {2 as nat} + {3 as nat} == {2, 3};
  }

  lemma SecondElectable()
    ensures Electable(Trio(Compacted1(), Candidate2(), FollowerAt(3, 0, [E1])), 2, 3, RequestVote(2, 3, 2, 1, 1))
  {
  }

  /** Node 3 votes for it. */
  lemma SecondElection()
    ensures Reached(Trio(Compacted1(), Leader2([], 1), Voter3()), {})
  {
    SecondCandidacy();
    SecondElectable();
    SecondOffice();
    Elected(Trio(Compacted1(), Candidate2(), FollowerAt(3, 0, [E1])), 2, 3, RequestVote(2, 3, 2, 1, 1), Leader2([], 1),
            Voter3(),
            MessageFor(Leader2([], 1), 3));
  }

  /** Node 2 proposes an entry of its own at index 2. */
  lemma ConflictingEntry()
    ensures Reached(Trio(Compacted1(), Leader2([F2], 1), Voter3()), {AppendEntries(2, 3, 2, 1, 1, [F2], 1, 0)})
  {
    SecondElection();
    ThenProposes(Trio(Compacted1(), Leader2([], 1), Voter3()), {}, 2);
    assert [] + [F2] == [F2];
    var n := Leader2([F2], 1);
    assert MessageFor(n, 3) == AppendEntries(2, 3, 2, 1, 1, [F2], 1, 0);
    Forget(Trio(Compacted1(), n, Voter3()), {} + {MessageFor(n, 1), MessageFor(n, 3)},
           {AppendEntries(2, 3, 2, 1, 1, [F2], 1, 0)});
  }

  function Follower3(): Node {
    Voter3().(log := [E1, F2], lead := 2, commit := 1)
  }

  lemma ConflictFollows(n: Node, m: Message)
    requires n == Voter3() && m == AppendEntries(2, 3, 2, 1, 1, [F2], 1, 0)
    ensures Follows(n, m) && AppendedTo(n, m) == Follower3()
  {
    assert n.log + m.entries == [E1, F2];
  }

  lemma ConflictStep()
    requires Reached(Trio(Compacted1(), Leader2([F2], 1), Voter3()), {AppendEntries(2, 3, 2, 1, 1, [F2], 1, 0)})
    requires Follows(Voter3(), AppendEntries(2, 3, 2, 1, 1, [F2], 1, 0))
    requires AppendedTo(Voter3(), AppendEntries(2, 3, 2, 1, 1, [F2], 1, 0)) == Follower3()
    ensures Reached(Trio(Compacted1(), Leader2([F2], 1), Follower3()), {AppendEntriesResponse(3, 2, 2, true, 2, 0)})
  {
    Appended3(Compacted1(), Leader2([F2], 1), Voter3(), AppendEntries(2, 3, 2, 1, 1, [F2], 1, 0), Follower3(),
              AppendEntriesResponse(3, 2, 2, true, 2, 0));
  }

  /** Node 3 appends it. */
  lemma ConflictReplicated()
    ensures Reached(Trio(Compacted1(), Leader2([F2], 1), Follower3()), {AppendEntriesResponse(3, 2, 2, true, 2, 0)})
  {
    ConflictingEntry();
    ConflictFollows(Voter3(), AppendEntries(2, 3, 2, 1, 1, [F2], 1, 0));
    ConflictStep();
  }

  /** Node 2 commits it. */
  lemma ConflictingCommit()
    ensures Reached(Trio(Compacted1(), Leader2([F2], 2), Follower3()), {})
  {
    ConflictReplicated();
    var ack, t := AppendEntriesResponse(3, 2, 2, true, 2, 0), Trio(Compacted1(), Leader2([F2], 1), Follower3());
    ThenCommits(t, {ack}, 2, ack);
    assert Leader2([F2], 1).progress[3 := Progress(2, 3)] == Leader2([F2], 2).progress;
    assert AckedBy(Leader2([F2], 1), ack) == Leader2([F2], 2);
    Forget(t.Set(2, Leader2([F2], 2)), {ack}, {});
  }

  /** State machine safety fails without the guard: a crash-free run at whose end nodes 1 and 2
      have both committed index 2, with different entries. */
  lemma CommittedEntryLost() returns (states: seq<State>, steps: seq<Step>)
    ensures Run(states, steps) && NoCrash(steps)
    ensures var c := states[|states| - 1];
            && Up(c, 1) && Up(c, 2)
            && NodeAt(c, 1).offset == 1 && NodeAt(c, 1).commit == 2 && NodeAt(c, 1).log == [E2]
            && NodeAt(c, 2).offset == 1 && NodeAt(c, 2).commit == 2 && NodeAt(c, 2).log == [F2]
            && E2 != F2
  {
    ConflictingCommit();
    var t := Trio(Compacted1(), Leader2([F2], 2), Follower3());
    states, steps :| Ends(states, steps, t, {});
    assert Up(states[|states| - 1], 1) && Up(states[|states| - 1], 2);
  }
}
