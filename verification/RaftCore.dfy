/** The Raft class itself: fields updated in place, one flush of the write-ahead log after
    another, messages queued for the transport.  Every entry point is proved to compute what
    `RaftNode` says; if a flush fails on the way, the durable records are those of the call
    up to some point and no positive answer is given.

    `thrown` marks an exception that left an entry point (a record over the log's size limit);
    it ends the process, so no entry point is called afterwards.
 */
module RaftCore {
  import opened Proto
  import opened RaftNode
  import opened Replay
  import opened WalFile

  const MEMBERS: seq<nat> := [1, 2, 3]

  /** `rs` has been appended to the durable records, completely if `ok`, else up to some point. */
  ghost predicate Wrote(before: seq<Record>, after: seq<Record>, rs: seq<Record>, ok: bool) {
    if ok then after == before + rs
    else exists j :: 0 <= j <= |rs| && after == before + rs[..j]
  }

  lemma WroteNothing(before: seq<Record>, rs: seq<Record>)
    ensures Wrote(before, before, rs, false) && Wrote(before, before, [], true)
  {
    assert before == before + rs[..0];
  }

  lemma WroteThen(a: seq<Record>, b: seq<Record>, c: seq<Record>, first: seq<Record>, second: seq<Record>, ok: bool)
    requires Wrote(a, b, first, true) && Wrote(b, c, second, ok)
    ensures Wrote(a, c, first + second, ok)
  {
    if !ok {
      var j :| 0 <= j <= |second| && c == b + second[..j];
      assert (first + second)[..|first| + j] == first + second[..j];
      assert c == a + (first + second)[..|first| + j];
    }
  }

  lemma WroteShortOf(a: seq<Record>, b: seq<Record>, first: seq<Record>, all: seq<Record>)
    requires Wrote(a, b, first, false) && first <= all
    ensures Wrote(a, b, all, false)
  {
    assert all == first + all[|first|..];
    WroteShort(a, b, first, all[|first|..]);
  }

  lemma WroteShort(a: seq<Record>, b: seq<Record>, first: seq<Record>, second: seq<Record>)
    requires Wrote(a, b, first, false)
    ensures Wrote(a, b, first + second, false)
  {
    var j :| 0 <= j <= |first| && b == a + first[..j];
    assert (first + second)[..j] == first[..j];
  }

  datatype Round = PreVoting | Voting | Heartbeat

  function MessageTo(n: Node, round: Round, peer: nat): Message {
    match round
    case PreVoting => PreVote(n.id, peer, n.pendingPreVote, n.Last(), n.LastLogTerm())
    case Voting => RequestVote(n.id, peer, n.term, n.Last(), n.LastLogTerm())
    case Heartbeat => MessageFor(n, peer)
  }

  /** What a loop over the members has sent to the peers among the first `i`. */
  function Sent(n: Node, round: Round, i: nat): seq<Message>
    requires i <= |MEMBERS|
  {
    if i == 0 then []
    else if MEMBERS[i - 1] == n.id then Sent(n, round, i - 1)
    else Sent(n, round, i - 1) + [MessageTo(n, round, MEMBERS[i - 1])]
  }

  lemma AllSent(n: Node, round: Round)
    ensures Sent(n, round, 3) == [MessageTo(n, round, Peers(n.id)[0]), MessageTo(n, round, Peers(n.id)[1])]
  {
    assert Sent(n, round, 1) == if n.id == 1 then [] else [MessageTo(n, round, 1)];
    assert Sent(n, round, 2) ==
           if n.id == 1 then [MessageTo(n, round, 2)]
           else if n.id == 2 then [MessageTo(n, round, 1)]
           else [MessageTo(n, round, 1), MessageTo(n, round, 2)];
  }

  /** The progress table after a new leader has visited the first `i` members. */
  function StartProgress(id: Id, i: nat, start: Progress): map<nat, Progress>
    requires i <= |MEMBERS|
  {
    if i == 0 then map[]
    else if MEMBERS[i - 1] == id then StartProgress(id, i - 1, start)
    else StartProgress(id, i - 1, start)[MEMBERS[i - 1] := start]
  }

  lemma AllStarted(id: Id, start: Progress)
    ensures StartProgress(id, 3, start) == map[Peers(id)[0] := start, Peers(id)[1] := start]
  {
    assert StartProgress(id, 1, start) == if id == 1 then map[] else map[1 := start];
    assert StartProgress(id, 2, start) ==
           if id == 1 then map[2 := start] else if id == 2 then map[1 := start] else map[1 := start, 2 := start];
  }

  /** State of the append loop before position `i`: nothing has happened up to the first new
      entry `k`; from there on the log is cut at that entry and extended. */
  ghost predicate Merging(p: Node, prev: nat, entries: Log, k: nat, i: nat, n: Node, pending: seq<Record>)
    requires i <= |entries|
  {
    if i <= k then n == p && pending == []
    else
      && p.offset <= prev + k <= p.Last()
      && p.commit <= prev + k
      && n == p.(log := p.log[..prev + k - p.offset] + entries[k..i])
      && pending == EntryRecords(entries[k..i])
  }

  /** `k` is where the request and the log of `p` part. */
  ghost predicate Parts(p: Node, prev: nat, entries: Log, k: nat) {
    && k <= |entries|
    && (forall j {:trigger IsNew(p, prev, entries, j)} :: 0 <= j < k ==> !IsNew(p, prev, entries, j))
    && (k < |entries| ==> IsNew(p, prev, entries, k) && p.offset <= prev + k <= p.Last())
  }

  lemma FirstNewParts(p: Node, prev: nat, prevTerm: nat, entries: Log)
    requires LogMatches(p, prev, prevTerm)
    ensures Parts(p, prev, entries, FirstNew(p, prev, entries, 0))
  {
    var k := FirstNew(p, prev, entries, 0);
    assert 0 < k ==> !IsNew(p, prev, entries, k - 1);
  }

  lemma MergeSkips(p: Node, prev: nat, entries: Log, k: nat, i: nat, n: Node, pending: seq<Record>)
    requires Parts(p, prev, entries, k) && i < |entries| && Merging(p, prev, entries, k, i, n, pending)
    requires !IsNew(n, prev, entries, i)
    ensures Merging(p, prev, entries, k, i + 1, n, pending)
  {
  }

  lemma MergeRefuses(p: Node, prev: nat, entries: Log, k: nat, i: nat, n: Node, pending: seq<Record>)
    requires Parts(p, prev, entries, k) && i < |entries| && Merging(p, prev, entries, k, i, n, pending)
    requires IsNew(n, prev, entries, i) && prev + i + 1 <= n.commit <= n.Last()
    ensures i == k
  {
  }

  lemma MergePlaces(p: Node, prev: nat, entries: Log, k: nat, i: nat, n: Node, pending: seq<Record>)
    requires Parts(p, prev, entries, k) && i < |entries| && Merging(p, prev, entries, k, i, n, pending)
    requires IsNew(n, prev, entries, i) && n.commit < prev + i + 1 && n.commit <= n.Last()
    ensures n.offset <= prev + i <= n.Last()
    ensures Merging(p, prev, entries, k, i + 1, n.(log := n.log[..prev + i - n.offset] + [entries[i]]),
                    pending + [EntryRecord(entries[i])])
  {
    var more := entries[k..i + 1];
    assert more == entries[k..i] + [entries[i]];
    assert EntryRecords(more) == EntryRecords(entries[k..i]) + [EntryRecord(entries[i])];
    if k < i {
      var kept := p.log[..prev + k - p.offset];
      assert n.log[..prev + i - n.offset] == n.log;
      assert n.log + [entries[i]] == kept + more;
    }
  }

  lemma MergeDone(p: Node, prev: nat, entries: Log, k: nat, n: Node, pending: seq<Record>)
    requires Parts(p, prev, entries, k) && Merging(p, prev, entries, k, |entries|, n, pending)
    ensures n == Merge(p, prev, entries, k) && pending == EntryRecords(entries[k..])
  {
    assert entries[k..|entries|] == entries[k..];
  }

  /** What an accepted request leaves, given the merged node `n`. */
  function Accepted(p: Node, m: Message, n: Node): Effect
    requires m.AppendEntries?
  {
    var r := if m.leaderCommit > n.commit then n.(commit := Min(m.leaderCommit, n.Last())) else n;
    Effect(r, if m.leaderCommit > n.commit then SaveHardState(r) else [],
           [AppendEntriesResponse(p.id, m.from, r.term, true, m.prevIndex + |m.entries|, m.context)])
  }

  lemma AppendPreparedIs(p: Node, m: Message, k: nat)
    requires m.AppendEntries? && LogMatches(p, m.prevIndex, m.prevTerm)
    requires k == FirstNew(p, m.prevIndex, m.entries, 0) && Parts(p, m.prevIndex, m.entries, k)
    ensures var e := AppendPrepared(p, m);
            if k < |m.entries| && m.prevIndex + k + 1 <= p.commit then
              e == Effect(p, [], [AppendEntriesResponse(p.id, m.from, p.term, false, p.commit, m.context)])
            else
              var a := Accepted(p, m, Merge(p, m.prevIndex, m.entries, k));
              e == Effect(a.node, EntryRecords(m.entries[k..]) + a.records, a.msgs)
  {
  }

  /** How many of the first `i` members the leader knows to hold the entry at `index`. */
  function Replicas(progress: map<nat, Progress>, index: nat, i: nat): nat
    requires i <= |MEMBERS|
  {
    if i == 0 then 0
    else Replicas(progress, index, i - 1) +
         if MEMBERS[i - 1] in progress && progress[MEMBERS[i - 1]].match_ >= index then 1 else 0
  }

  lemma {:induction false} ReplicasSome(progress: map<nat, Progress>, index: nat, i: nat)
    requires i <= |MEMBERS|
    ensures Replicas(progress, index, i) > 0 <==>
            exists j :: 0 <= j < i && MEMBERS[j] in progress && progress[MEMBERS[j]].match_ >= index
  {
    if i > 0 {
      ReplicasSome(progress, index, i - 1);
    }
  }

  lemma MajorityCommits(n: Node, index: nat)
    requires forall p :: p in n.progress ==> IsMember(p)
    requires n.commit < index <= n.Last() && n.TermAt(index) == n.term
    ensures 1 + Replicas(n.progress, index, 3) > 1 <==> Committable(n, index)
  {
    ReplicasSome(n.progress, index, 3);
    if Committable(n, index) {
      var p :| p in n.progress && n.progress[p].match_ >= index;
      assert IsMember(p) && MEMBERS[p - 1] == p;
    }
  }

  class Raft {
    const wal: Wal
    const electionTimeout: nat
    const heartbeatTimeout: nat

    var s: Node  // the core's scalar fields, log, progress and vote tables
    var electionElapsed: nat
    var randomizedTimeout: nat
    var heartbeatElapsed: nat
    var out: seq<Message>
    var storageFailed: bool
    var thrown: bool

    /** Other timeouts are refused by the code as an invalid configuration. */
    constructor (id: Id, wal: Wal, electionTimeout: nat, heartbeatTimeout: nat)
      requires 0 < electionTimeout && 0 < heartbeatTimeout
      requires wal.Valid() && !wal.failed && wal.pending == []
      ensures Inv() && Healthy() && s == Fresh(id) && out == [] && this.wal == wal
    {
      this.wal, this.electionTimeout, this.heartbeatTimeout := wal, electionTimeout, heartbeatTimeout;
      s := Fresh(id);
      heartbeatElapsed, out, storageFailed, thrown := 0, [], false, false;
      electionElapsed := 0;
      var jitter: nat :| jitter < electionTimeout;
      randomizedTimeout := electionTimeout + jitter;
    }

    predicate Healthy()
      reads this
    {
      !storageFailed && !thrown
    }

    /** Holds between the writes of one call too. */
    ghost predicate Base()
      reads this, wal
    {
      && wal.Valid()
      && storageFailed == wal.failed
      && s.offset <= s.applied <= s.commit <= s.Last()
      && (forall p :: p in s.progress ==> IsMember(p))
      && 0 < electionTimeout <= randomizedTimeout < 2 * electionTimeout
    }

    ghost predicate Inv()
      reads this, wal
    {
      Base() && (Healthy() ==> wal.pending == [])
    }

    /** Since the old state, exactly `e` has happened, or storage failed part of the way. */
    twostate predicate Did(e: Effect)
      reads this, wal
    {
      && (Healthy() ==> s == e.node && out == old(out) + e.msgs)
      && Wrote(old(wal.durable), wal.durable, e.records, Healthy())
      && (old(storageFailed) ==> storageFailed && wal.durable == old(wal.durable))
    }

    /** The same for a handler whose one message is its return value. */
    twostate predicate Answered(e: Effect, answer: Message)
      reads this, wal
    {
      && (Healthy() ==> s == e.node && out == old(out) && e.msgs == [answer])
      && Wrote(old(wal.durable), wal.durable, e.records, Healthy())
      && (old(storageFailed) ==> storageFailed && wal.durable == old(wal.durable))
    }

    // ---------- storage ----------

    /** Flushes the log's buffer, which holds the records `rs`. */
    method SyncWal(ghost rs: seq<Record>) returns (ok: bool)
      requires Base() && !thrown && (!storageFailed ==> wal.pending == rs)
      modifies wal, this`storageFailed
      ensures Inv() && ok == Healthy()
      ensures Wrote(old(wal.durable), wal.durable, rs, ok)
      ensures old(storageFailed) ==> storageFailed && wal.durable == old(wal.durable)
    {
      if storageFailed {
        WroteNothing(wal.durable, rs);
      }
      ok := wal.Sync();
      if !ok {
        storageFailed := true;
      }
    }

    method PersistHardState() returns (ok: bool)
      requires Inv() && !thrown
      modifies wal, this`storageFailed, this`thrown
      ensures Inv() && ok == Healthy()
      ensures Wrote(old(wal.durable), wal.durable, SaveHardState(s), ok)
      ensures old(storageFailed) ==> storageFailed && wal.durable == old(wal.durable)
    {
      var saved := wal.SaveHardState(HardState(s.term, s.vote, s.commit));
      if !saved {
        thrown := true;
        WroteNothing(wal.durable, SaveHardState(s));
        return false;
      }
      assert Healthy() ==> wal.pending == SaveHardState(s);
      ok := SyncWal(SaveHardState(s));
    }

    /** Appends a record to the log and flushes it. */
    method Persist(r: Record) returns (ok: bool)
      requires Inv() && !thrown
      modifies wal, this`storageFailed, this`thrown
      ensures Inv() && ok == Healthy()
      ensures Wrote(old(wal.durable), wal.durable, [r], ok)
      ensures old(storageFailed) ==> storageFailed && wal.durable == old(wal.durable)
    {
      var saved := wal.AppendRecord(r);
      if !saved {
        thrown := true;
        WroteNothing(wal.durable, [r]);
        return false;
      }
      assert Healthy() ==> wal.pending == [r];
      ok := SyncWal([r]);
    }

    // ---------- role changes ----------

    method ResetElectionTimeout()
      requires 0 < electionTimeout
      modifies this`electionElapsed, this`randomizedTimeout
      ensures electionElapsed == 0 && electionTimeout <= randomizedTimeout < 2 * electionTimeout
    {
      electionElapsed := 0;
      var jitter: nat :| jitter < electionTimeout;
      randomizedTimeout := electionTimeout + jitter;
    }

    method BecomeFollower(t: nat, leader: nat)
      requires Inv() && !thrown
      modifies this, wal
      ensures Inv() && Did(RaftNode.BecomeFollower(old(s), t, leader))
      ensures t <= old(s).term ==> Healthy() == old(Healthy())
    {
      WroteNothing(wal.durable, []);
      if t < s.term {
        return;
      }
      var advanced := t > s.term;
      s := s.(role := Follower, term := t, lead := leader);
      if advanced {
        s := s.(vote := 0);
      }
      s := s.(readPending := false, readIndex := 0, readContext := 0, readAcks := {}, pendingPreVote := 0);
      ResetElectionTimeout();
      if advanced {
        var _ := PersistHardState();
      }
    }

    method BecomePreCandidate()
      requires Inv()
      modifies this`s, this`electionElapsed, this`randomizedTimeout
      ensures Inv() && s == RaftNode.BecomePreCandidate(old(s))
    {
      s := s.(role := PreCandidate, lead := 0, preVotes := {}, pendingPreVote := 0);
      ResetElectionTimeout();
    }

    method BecomeCandidate()
      requires Inv() && !thrown
      modifies this, wal
      ensures Inv() && Did(RaftNode.BecomeCandidate(old(s)))
    {
      s := s.(role := Candidate, term := s.term + 1, lead := 0, vote := s.id, votes := {}, pendingPreVote := 0);
      ResetElectionTimeout();
      var _ := PersistHardState();
    }

    method BecomeLeader()
      requires Inv()
      modifies this`s, this`heartbeatElapsed, this`out
      ensures Inv()
      ensures var e := RaftNode.BecomeLeader(old(s)); s == e.node && out == old(out) + e.msgs
    {
      heartbeatElapsed := 0;
      TakeLead();
      BroadcastHeartbeat();
    }

    /** The role and the progress of a new leader. */
    method TakeLead()
      requires Inv()
      modifies this`s
      ensures Inv() && s == RaftNode.BecomeLeader(old(s)).node
    {
      var progress := NewProgress();
      s := s.(role := Leader, lead := s.id, progress := progress);
    }

    method NewProgress() returns (progress: map<nat, Progress>)
      ensures var start := Progress(0, s.Last() + 1);
              progress == map[Peers(s.id)[0] := start, Peers(s.id)[1] := start]
    {
      progress := map[];
      var start := Progress(0, s.Last() + 1);
      for i := 0 to |MEMBERS|
        invariant progress == StartProgress(s.id, i, start)
      {
        if MEMBERS[i] != s.id {
          progress := progress[MEMBERS[i] := start];
        }
      }
      AllStarted(s.id, start);
    }

    // ---------- elections ----------

    method PreCampaign()
      requires Inv() && Healthy()
      modifies this`s, this`out
      ensures Inv()
      ensures var e := RaftNode.PreCampaign(old(s)); s == e.node && out == old(out) + e.msgs
    {
      s := s.(pendingPreVote := s.term + 1, preVotes := s.preVotes + {s.id as nat});
      for i := 0 to |MEMBERS|
        modifies this`out
        invariant out == old(out) + Sent(s, PreVoting, i)
      {
        if MEMBERS[i] != s.id {
          out := out + [PreVote(s.id, MEMBERS[i], s.pendingPreVote, s.Last(), s.LastLogTerm())];
        }
      }
      AllSent(s, PreVoting);
    }

    method Campaign()
      requires Inv() && Healthy()
      modifies this`s, this`out
      ensures Inv()
      ensures var e := RaftNode.Campaign(old(s)); s == e.node && out == old(out) + e.msgs
    {
      s := s.(votes := s.votes + {s.id as nat});
      for i := 0 to |MEMBERS|
        modifies this`out
        invariant out == old(out) + Sent(s, Voting, i)
      {
        if MEMBERS[i] != s.id {
          out := out + [RequestVote(s.id, MEMBERS[i], s.term, s.Last(), s.LastLogTerm())];
        }
      }
      AllSent(s, Voting);
    }

    /** One clock tick; the election or heartbeat round starts when its counter runs out. */
    method Tick() returns (fires: bool)
      requires Inv() && !thrown
      modifies this
      ensures Inv() && Did(RaftNode.Tick(old(s), fires))
      ensures old(Healthy()) ==>
        fires == if old(s).role.Leader? then old(heartbeatElapsed) + 1 >= heartbeatTimeout
                 else old(electionElapsed) + 1 >= old(randomizedTimeout)
    {
      WroteNothing(wal.durable, []);
      fires := false;
      if storageFailed {
        return;
      }
      if s.role.Leader? {
        heartbeatElapsed := heartbeatElapsed + 1;
        if heartbeatElapsed >= heartbeatTimeout {
          fires := true;
          heartbeatElapsed := 0;
          BroadcastHeartbeat();
        }
      } else {
        electionElapsed := electionElapsed + 1;
        if electionElapsed >= randomizedTimeout {
          fires := true;
          electionElapsed := 0;
          BecomePreCandidate();
          PreCampaign();
        }
      }
    }

    // ---------- replication ----------

    static method HeartbeatFor(n: Node, peer: nat) returns (m: Message)
      ensures m == MessageFor(n, peer)
    {
      var next := n.ProgressOf(peer).next;
      if next <= n.offset {
        return MakeInstallSnapshot(n, peer);
      }
      var entries := EntriesAfter(n, next - 1);
      m := AppendEntries(n.id, peer, n.term, next - 1, n.TermAt(next - 1), entries, n.commit,
                         if n.readPending then n.readContext else 0);
    }

    /** Everything the log holds after index `prev`. */
    static method EntriesAfter(n: Node, prev: nat) returns (entries: Log)
      requires n.offset <= prev
      ensures entries == Suffix(n, prev)
    {
      entries := [];
      var i := prev + 1;
      while i <= n.Last()
        invariant prev < i && (i == prev + 1 || i <= n.Last() + 1)
        invariant entries == if prev <= n.Last() then n.log[prev - n.offset..i - 1 - n.offset] else []
      {
        entries := entries + [n.log[i - n.offset - 1]];
        i := i + 1;
      }
    }

    method BroadcastHeartbeat()
      requires Inv()
      modifies this`out
      ensures Inv() && out == old(out) + Broadcast(s)
    {
      for i := 0 to |MEMBERS|
        modifies this`out
        invariant out == old(out) + Sent(s, Heartbeat, i)
      {
        if MEMBERS[i] != s.id {
          var m := HeartbeatFor(s, MEMBERS[i]);
          out := out + [m];
        }
      }
      AllSent(s, Heartbeat);
    }

    // ---------- vote messages ----------

    method HandleRequestVote(m: Message) returns (r: Message)
      requires Inv() && !thrown && m.RequestVote?
      modifies this, wal
      ensures Inv() && Answered(RaftNode.HandleRequestVote(old(s), m), r)
      ensures r.RequestVoteResponse? && (r.granted ==> Healthy())
    {
      WroteNothing(wal.durable, RaftNode.HandleRequestVote(s, m).records);
      WroteNothing(wal.durable, []);
      if !s.Accepts(m.from, m.to) {
        return RequestVoteResponse(s.id, m.from, s.term, false);
      }
      ghost var moved := if m.term > s.term then RaftNode.BecomeFollower(s, m.term, 0) else Effect(s, [], []);
      if m.term > s.term {
        BecomeFollower(m.term, 0);
      }
      if !Healthy() {
        WroteShortOf(old(wal.durable), wal.durable, moved.records, RaftNode.HandleRequestVote(old(s), m).records);
        return RequestVoteResponse(s.id, m.from, s.term, false);
      }
      if m.term == s.term && (s.vote == 0 || s.vote == m.from) && s.IsLogUpToDate(m.lastIndex, m.lastTerm) {
        s := s.(vote := m.from);
        ResetElectionTimeout();
        ghost var between := wal.durable;
        var granted := PersistHardState();
        WroteThen(old(wal.durable), between, wal.durable, moved.records, SaveHardState(s), granted);
        return RequestVoteResponse(s.id, m.from, s.term, granted);
      }
      return RequestVoteResponse(s.id, m.from, s.term, false);
    }

    method HandleRequestVoteResponse(m: Message)
      requires Inv() && !thrown && m.RequestVoteResponse?
      modifies this, wal
      ensures Inv() && Did(RaftNode.HandleRequestVoteResponse(old(s), m))
    {
      WroteNothing(wal.durable, []);
      if !s.Accepts(m.from, m.to) {
        return;
      }
      if m.term > s.term {
        BecomeFollower(m.term, 0);
        return;
      }
      if m.term < s.term || !s.role.Candidate? {
        return;
      }
      if m.granted {
        s := s.(votes := s.votes + {m.from});
      }
      if |s.votes| > |MEMBERS| / 2 {
        BecomeLeader();
      }
    }

    method HandlePreVote(m: Message) returns (r: Message)
      requires Inv() && !thrown && m.PreVote?
      ensures Healthy() ==> RaftNode.HandlePreVote(s, m, electionElapsed < electionTimeout) == Effect(s, [], [r])
      ensures r.PreVoteResponse? && (r.granted ==> Healthy())
    {
      if !s.Accepts(m.from, m.to) {
        return PreVoteResponse(s.id, m.from, s.term, false, m.term);
      }
      if storageFailed || m.term <= s.term {
        return PreVoteResponse(s.id, m.from, s.term, false, m.term);
      }
      if s.lead != 0 && electionElapsed < electionTimeout {
        return PreVoteResponse(s.id, m.from, s.term, false, m.term);
      }
      return PreVoteResponse(s.id, m.from, s.term, s.IsLogUpToDate(m.lastIndex, m.lastTerm), m.term);
    }

    method HandlePreVoteResponse(m: Message)
      requires Inv() && !thrown && m.PreVoteResponse?
      modifies this, wal
      ensures Inv() && Did(RaftNode.HandlePreVoteResponse(old(s), m))
    {
      WroteNothing(wal.durable, []);
      if !s.Accepts(m.from, m.to) {
        return;
      }
      if m.term > s.term {
        BecomeFollower(m.term, 0);
        return;
      }
      if !s.role.PreCandidate? || m.preVoteTerm == 0 || m.preVoteTerm != s.pendingPreVote {
        return;
      }
      if m.granted {
        s := s.(preVotes := s.preVotes + {m.from});
      }
      if |s.preVotes| > |MEMBERS| / 2 {
        BecomeCandidate();
        if Healthy() {
          Campaign();
        }
      }
    }

    // ---------- following a leader ----------

    method PrepareForLeaderRpc(from: nat, to: nat, t: nat) returns (ok: bool)
      requires Inv() && !thrown
      modifies this, wal
      ensures Inv() && (ok ==> Healthy())
      ensures var ready := RaftNode.PrepareForLeaderRpc(old(s), from, to, t);
              Did(Effect(ready.node, ready.records, [])) && (Healthy() ==> ok == ready.ok)
    {
      WroteNothing(wal.durable, []);
      if !s.Accepts(from, to) {
        return false;
      }
      if t > s.term {
        BecomeFollower(t, from);
      }
      if !Healthy() || t < s.term {
        return false;
      }
      if !s.role.Follower? {
        BecomeFollower(t, from);
      }
      ResetElectionTimeout();
      s := s.(lead := from);
      return true;
    }

    /** Cuts the log before `index` if it reaches that far, appends `e` and records it. */
    method PlaceEntry(index: nat, e: Entry)
      requires Base() && Healthy() && s.commit < index && s.offset < index <= s.Last() + 1
      modifies this`s, this`thrown, wal`buffer, wal`pending
      ensures Base()
      ensures s == old(s).(log := old(s).log[..index - 1 - old(s).offset] + [e])
      ensures Healthy() ==> wal.pending == old(wal.pending) + [EntryRecord(e)]
    {
      if index <= s.Last() {
        s := s.(log := s.log[..index - s.offset - 1]);
      }
      s := s.(log := s.log + [e]);
      var saved := wal.AppendRecord(EntryRecord(e));
      if !saved {
        thrown := true;
      }
    }

    /** The append loop: skips what is compacted or already held, refuses a conflict at or below
        the commit index, truncates at the first conflict above it and appends from there on. */
    method MergeEntries(prev: nat, entries: Log, ghost k: nat) returns (refused: bool)
      requires Inv() && Healthy() && Parts(s, prev, entries, k)
      modifies this`s, this`thrown, wal`buffer, wal`pending
      ensures Base()
      ensures refused == (k < |entries| && prev + k + 1 <= old(s).commit)
      ensures refused ==> Healthy() && s == old(s) && wal.pending == []
      ensures !refused && Healthy() ==> Merging(old(s), prev, entries, k, |entries|, s, wal.pending)
    {
      ghost var p := s;
      for i := 0 to |entries|
        modifies this`s, this`thrown, wal`buffer, wal`pending
        invariant Base() && Healthy() && Merging(p, prev, entries, k, i, s, wal.pending)
      {
        var index := prev + i + 1;
        if index <= s.offset {
          MergeSkips(p, prev, entries, k, i, s, wal.pending);
          continue;
        }
        if index <= s.Last() {
          if s.TermAt(index) == entries[i].term {
            MergeSkips(p, prev, entries, k, i, s, wal.pending);
            continue;
          }
          if index <= s.commit {
            MergeRefuses(p, prev, entries, k, i, s, wal.pending);
            return true;
          }
        }
        MergePlaces(p, prev, entries, k, i, s, wal.pending);
        PlaceEntry(index, entries[i]);
        if !Healthy() {
          return false;
        }
      }
      return false;
    }

    /** The commit rule of a follower whose log now holds the request's entries. */
    method LearnCommit(m: Message) returns (ok: bool)
      requires Inv() && Healthy() && m.AppendEntries?
      modifies this, wal
      ensures Inv() && ok == Healthy() && out == old(out)
      ensures ok ==> s == Accepted(old(s), m, old(s)).node
      ensures Wrote(old(wal.durable), wal.durable, Accepted(old(s), m, old(s)).records, ok)
    {
      ok := true;
      if m.leaderCommit > s.commit {
        s := s.(commit := Min(m.leaderCommit, s.Last()));
        ok := PersistHardState();
      }
    }

    /** Merges, flushes and applies the commit rule; the log agrees with the request so far. */
    method AppendMatching(m: Message, ghost k: nat) returns (ok: bool, match_: nat)
      requires Inv() && Healthy() && m.AppendEntries? && Parts(s, m.prevIndex, m.entries, k)
      modifies this, wal
      ensures Inv() && (ok ==> Healthy()) && out == old(out)
      ensures if k < |m.entries| && m.prevIndex + k + 1 <= old(s).commit then
                Healthy() && !ok && s == old(s) && match_ == s.commit && wal.durable == old(wal.durable)
              else
                var n := Merge(old(s), m.prevIndex, m.entries, k);
                var e := Accepted(old(s), m, n);
                && ok == Healthy()
                && (ok ==> s == e.node && match_ == m.prevIndex + |m.entries|)
                && Wrote(old(wal.durable), wal.durable, EntryRecords(m.entries[k..]) + e.records, ok)
    {
      ghost var p := s;
      ok, match_ := false, 0;
      var refused := MergeEntries(m.prevIndex, m.entries, k);
      if refused {
        match_ := s.commit;
        return;
      }
      ghost var first := EntryRecords(m.entries[k..]);
      ghost var second := Accepted(p, m, Merge(p, m.prevIndex, m.entries, k)).records;
      WroteNothing(wal.durable, first + second);
      if thrown {
        return;
      }
      MergeDone(p, m.prevIndex, m.entries, k, s, wal.pending);
      var synced := SyncWal(first);
      ghost var between := wal.durable;
      if !synced {
        WroteShort(old(wal.durable), between, first, second);
        return;
      }
      ok := LearnCommit(m);
      WroteThen(old(wal.durable), between, wal.durable, first, second, ok);
      match_ := m.prevIndex + |m.entries|;
    }

    method AppendToLog(m: Message) returns (r: Message)
      requires Inv() && Healthy() && m.AppendEntries?
      modifies this, wal
      ensures Inv() && Answered(AppendPrepared(old(s), m), r)
      ensures r.AppendEntriesResponse? && (r.success ==> Healthy())
    {
      r := AppendEntriesResponse(s.id, m.from, s.term, false, 0, m.context);
      var logOk := false;
      if m.prevIndex == 0 {
        logOk := true;
      } else if m.prevIndex >= s.offset && s.Last() >= m.prevIndex {
        logOk := s.TermAt(m.prevIndex) == m.prevTerm;
      }
      if !logOk {
        return;
      }
      ghost var k := FirstNew(s, m.prevIndex, m.entries, 0);
      FirstNewParts(s, m.prevIndex, m.prevTerm, m.entries);
      AppendPreparedIs(s, m, k);
      var ok, match_ := AppendMatching(m, k);
      r := r.(success := ok, matchIndex := match_);
    }

    method HandleAppendEntries(m: Message) returns (r: Message)
      requires Inv() && !thrown && m.AppendEntries?
      modifies this, wal
      ensures Inv() && Answered(RaftNode.HandleAppendEntries(old(s), m), r)
      ensures r.AppendEntriesResponse? && (r.success ==> Healthy())
    {
      ghost var ready := RaftNode.PrepareForLeaderRpc(s, m.from, m.to, m.term);
      ghost var all := RaftNode.HandleAppendEntries(s, m).records;
      var ok := PrepareForLeaderRpc(m.from, m.to, m.term);
      if !ok {
        if !Healthy() {
          WroteShortOf(old(wal.durable), wal.durable, ready.records, all);
        }
        return AppendEntriesResponse(s.id, m.from, s.term, false, 0, m.context);
      }
      ghost var between, p := wal.durable, s;
      r := AppendToLog(m);
      WroteThen(old(wal.durable), between, wal.durable, ready.records, AppendPrepared(p, m).records, Healthy());
    }

    // ---------- leading ----------

    method CountReplicas(index: nat) returns (replicas: nat)
      ensures replicas == 1 + Replicas(s.progress, index, 3)
    {
      replicas := 1;
      for i := 0 to |MEMBERS|
        invariant replicas == 1 + Replicas(s.progress, index, i)
      {
        if MEMBERS[i] in s.progress && s.progress[MEMBERS[i]].match_ >= index {
          replicas := replicas + 1;
        }
      }
    }

    /** The ascending scan over uncommitted entries of the current term. */
    method AdvanceCommit()
      requires Inv()
      modifies this`s
      ensures Inv() && s == old(s).(commit := HighestCommittable(old(s), old(s).Last()))
    {
      ghost var p := s;
      var i := s.commit + 1;
      while i <= s.Last()
        modifies this`s
        invariant p.commit < i <= p.Last() + 1
        invariant Inv() && s == p.(commit := HighestCommittable(p, i - 1))
        decreases p.Last() + 1 - i
      {
        if s.log[i - s.offset - 1].term == s.term {
          var replicas := CountReplicas(i);
          MajorityCommits(p, i);
          if replicas > |MEMBERS| / 2 {
            s := s.(commit := i);
          }
        }
        i := i + 1;
      }
    }

    method HandleAppendEntriesResponse(m: Message)
      requires Inv() && !thrown && m.AppendEntriesResponse?
      modifies this, wal
      ensures Inv() && Did(RaftNode.HandleAppendEntriesResponse(old(s), m))
    {
      WroteNothing(wal.durable, []);
      WroteNothing(wal.durable, RaftNode.HandleAppendEntriesResponse(s, m).records);
      if !s.Accepts(m.from, m.to) {
        return;
      }
      if m.term > s.term {
        BecomeFollower(m.term, 0);
        return;
      }
      if storageFailed || !s.role.Leader? || m.term < s.term {
        return;
      }
      if m.success {
        RecordSuccess(m);
      } else {
        BackOff(m);
      }
    }

    method RecordSuccess(m: Message)
      requires Inv() && Healthy() && m.AppendEntriesResponse? && m.success
      requires s.Accepts(m.from, m.to) && s.role.Leader? && m.term == s.term
      modifies this, wal
      ensures Inv() && Did(RaftNode.HandleAppendEntriesResponse(old(s), m))
    {
      s := s.(progress := s.progress[m.from := Progress(m.matchIndex, m.matchIndex + 1)]);
      if s.readPending && m.context != 0 && m.context == s.readContext {
        s := s.(readAcks := s.readAcks + {m.from});
      }
      var before := s.commit;
      AdvanceCommit();
      if s.commit > before {
        var _ := PersistHardState();
      }
    }

    method BackOff(m: Message)
      requires Inv() && Healthy() && m.AppendEntriesResponse? && !m.success
      requires s.Accepts(m.from, m.to) && s.role.Leader? && m.term == s.term
      modifies this`s, this`out
      ensures Inv() && Did(RaftNode.HandleAppendEntriesResponse(old(s), m))
    {
      var progress := s.ProgressOf(m.from);
      if progress.next > 1 {
        progress := progress.(next := progress.next - 1);
      }
      s := s.(progress := s.progress[m.from := progress]);
      if s.offset > 0 && progress.next <= s.offset {
        out := out + [MakeInstallSnapshot(s, m.from)];
      } else {
        BroadcastHeartbeat();
      }
    }

    method Propose(data: Option<Command>) returns (index: Option<nat>)
      requires Inv() && !thrown
      modifies this, wal
      ensures Inv() && Did(RaftNode.Propose(old(s), data).effect)
      ensures Healthy() ==> index == RaftNode.Propose(old(s), data).index
      ensures !Healthy() ==> index == None && out == old(out) && (!thrown ==> s == old(s))
    {
      WroteNothing(wal.durable, []);
      WroteNothing(wal.durable, RaftNode.Propose(s, data).effect.records);
      if !s.role.Leader? || storageFailed {
        return None;
      }
      var e := Entry(s.term, s.Last() + 1, data);
      s := s.(log := s.log + [e]);
      var ok := Persist(EntryRecord(e));
      if thrown {
        return None;
      }
      if !ok {
        s := s.(log := s.log[..|s.log| - 1]);
        return None;
      }
      BroadcastHeartbeat();
      return Some(e.index);
    }

    // ---------- applying and compacting ----------

    method NextEntryToApply() returns (e: Option<Entry>)
      requires Inv() && s.Valid()
      ensures e == RaftNode.NextEntryToApply(s)
    {
      if s.applied >= s.commit {
        return None;
      }
      return Some(s.log[s.applied + 1 - s.offset - 1]);
    }

    method Advance(index: nat)
      requires Inv()
      modifies this`s
      ensures Inv() && s == RaftNode.Advance(old(s), index)
    {
      if index > s.commit || index != s.applied + 1 {
        return;
      }
      s := s.(applied := index);
    }

    /** Position of the first entry after `index`; 0 if there is none or nothing to drop. */
    method KeepFrom(index: nat) returns (k: nat)
      requires s.Valid() && s.offset < index <= s.Last()
      ensures k == if index < s.Last() then index - s.offset else 0
    {
      k := 0;
      for i := 0 to |s.log|
        invariant i <= index - s.offset && k == 0
      {
        if s.log[i].index > index {
          k := i;
          break;
        }
      }
    }

    method TakeSnapshot(index: nat, state: Option<Store>)
      requires Inv() && !thrown && s.Valid()
      modifies this, wal
      ensures Inv() && Did(RaftNode.TakeSnapshot(old(s), index, state))
    {
      WroteNothing(wal.durable, []);
      if index == 0 || index <= s.offset || index > s.applied {
        return;
      }
      var t := s.TermAt(index);
      var ok := Persist(SnapshotRecord(SnapshotMeta(index, t, state, false)));
      if !ok {
        return;
      }
      var k := KeepFrom(index);
      if k > 0 {
        s := s.(log := s.log[k..]);
      } else if |s.log| > 0 && s.log[|s.log| - 1].index <= index {
        s := s.(log := []);
      }
      s := s.(offset := index, offsetTerm := t, snapData := state);
    }

    /** The part of snapshot installation after the sender has been accepted. */
    method Install(m: Message, restored: bool) returns (r: Message)
      requires Inv() && Healthy() && m.InstallSnapshot?
      modifies this, wal
      ensures Inv() && Answered(InstallPrepared(old(s), m, restored), r)
      ensures r.InstallSnapshotResponse? && (r.success ==> Healthy())
    {
      r := InstallSnapshotResponse(s.id, m.from, s.term, false, 0);
      if m.snapIndex == 0 || m.snapTerm == 0 || m.snapTerm > m.term || m.snapData.None? {
        return;
      }
      var committed, applied := s.commit, s.applied;
      if committed > m.snapIndex || applied >= m.snapIndex {
        return r.(success := true, matchIndex := Max(committed, applied));
      }
      if !restored {
        return;
      }
      ghost var first := [SnapshotRecord(SnapshotMeta(m.snapIndex, m.snapTerm, m.snapData, true))];
      ghost var second := SaveHardState(s.(commit := m.snapIndex));
      var ok := Persist(SnapshotRecord(SnapshotMeta(m.snapIndex, m.snapTerm, m.snapData, true)));
      ghost var between := wal.durable;
      if !ok {
        WroteShort(old(wal.durable), between, first, second);
        return;
      }
      s := s.(log := [], offset := m.snapIndex, offsetTerm := m.snapTerm, snapData := m.snapData);
      s := s.(applied := m.snapIndex, commit := m.snapIndex);
      ok := PersistHardState();
      WroteThen(old(wal.durable), between, wal.durable, first, second, ok);
      if ok {
        r := r.(success := true, matchIndex := m.snapIndex);
      }
    }

    method HandleInstallSnapshot(m: Message, restored: bool) returns (r: Message)
      requires Inv() && !thrown && m.InstallSnapshot?
      modifies this, wal
      ensures Inv() && Answered(RaftNode.HandleInstallSnapshot(old(s), m, restored), r)
      ensures r.InstallSnapshotResponse? && (r.success ==> Healthy())
    {
      ghost var ready := RaftNode.PrepareForLeaderRpc(s, m.from, m.to, m.term);
      ghost var all := RaftNode.HandleInstallSnapshot(s, m, restored).records;
      var ok := PrepareForLeaderRpc(m.from, m.to, m.term);
      if !ok {
        if !Healthy() {
          WroteShortOf(old(wal.durable), wal.durable, ready.records, all);
        }
        return InstallSnapshotResponse(s.id, m.from, s.term, false, 0);
      }
      ghost var between, p := wal.durable, s;
      r := Install(m, restored);
      WroteThen(old(wal.durable), between, wal.durable, ready.records, InstallPrepared(p, m, restored).records,
                Healthy());
    }

    method HandleInstallSnapshotResponse(m: Message)
      requires Inv() && !thrown && m.InstallSnapshotResponse?
      modifies this, wal
      ensures Inv() && Did(RaftNode.HandleInstallSnapshotResponse(old(s), m))
    {
      WroteNothing(wal.durable, []);
      if !s.Accepts(m.from, m.to) {
        return;
      }
      if m.term > s.term {
        BecomeFollower(m.term, 0);
        return;
      }
      if !s.role.Leader? || m.term < s.term {
        return;
      }
      if m.success {
        s := s.(progress := s.progress[m.from := Progress(m.matchIndex, m.matchIndex + 1)]);
        BroadcastHeartbeat();
      }
    }

    // ---------- linearizable reads ----------

    method ReadIndex() returns (token: Option<ReadToken>)
      requires Inv() && !thrown
      modifies this, wal
      ensures Inv() && Did(RaftNode.ReadIndex(old(s)).effect)
      ensures Healthy() ==> token == RaftNode.ReadIndex(old(s)).token
      ensures !Healthy() ==> token == None
    {
      if !s.role.Leader? || storageFailed {
        WroteNothing(wal.durable, RaftNode.ReadIndex(s).effect.records);
        return None;
      }
      if s.readPending {
        WroteNothing(wal.durable, []);
        return Some(ReadToken(s.readContext, s.readIndex));
      }
      OpenedShape(s);
      if !s.CommittedInTerm() {
        token := ReadAfterNoOp();
      } else {
        token := ReadAtCommit();
      }
    }

    /** The fields of a new quorum round whose reads wait for `index`. */
    method OpenRound(index: nat)
      requires Inv()
      modifies this`s
      ensures Inv() && s == old(s).(readPending := true, readContext := old(s).nextContext,
                                    nextContext := old(s).nextContext + 1, readAcks := {}, readIndex := index)
    {
      s := s.(readPending := true, readContext := s.nextContext, nextContext := s.nextContext + 1);
      s := s.(readAcks := {});
      s := s.(readIndex := index);
    }

    method ReadAtCommit() returns (token: Option<ReadToken>)
      requires Inv() && Healthy() && s.CommittedInTerm()
      modifies this`s, this`out
      ensures Inv() && Did(Effect(Opened(old(s)), [], Broadcast(Opened(old(s)))))
      ensures Healthy() && token == Some(ReadToken(old(s).nextContext, Opened(old(s)).readIndex))
    {
      WroteNothing(wal.durable, []);
      OpenRound(s.commit);
      assert s == Opened(old(s));
      BroadcastHeartbeat();
      return Some(ReadToken(s.readContext, s.readIndex));
    }

    /** A new leader proposes a no-op and fences the read at it. */
    method ReadAfterNoOp() returns (token: Option<ReadToken>)
      requires Inv() && Healthy() && s.role.Leader? && !s.CommittedInTerm()
      modifies this, wal
      ensures Inv() && Did(RaftNode.Propose(Opened(old(s)), None).effect)
      ensures token == if Healthy() then Some(ReadToken(old(s).nextContext, Opened(old(s)).readIndex)) else None
    {
      OpenRound(s.Last() + 1);
      assert s == Opened(old(s));
      var read := ReadToken(s.readContext, s.readIndex);
      var index := Propose(None);
      if index.None? {
        if !thrown {
          FinishReadIndex(read);
        }
        return None;
      }
      return Some(read);
    }

    method ReadIndexReady(read: ReadToken) returns (ready: bool)
      requires Inv() && !thrown
      ensures ready == (Healthy() && RaftNode.ReadIndexReady(s, read))
    {
      if !s.role.Leader? || storageFailed {
        return false;
      }
      if read.context != s.readContext || read.safeIndex != s.readIndex {
        return false;
      }
      if !s.CommittedInTerm() {
        return false;
      }
      if s.applied < read.safeIndex {
        return false;
      }
      return 1 + |s.readAcks| >= |MEMBERS| / 2 + 1;
    }

    method FinishReadIndex(read: ReadToken)
      requires Inv()
      modifies this`s
      ensures Inv() && s == RaftNode.FinishReadIndex(old(s), read)
    {
      if read.context != s.readContext || read.safeIndex != s.readIndex {
        return;
      }
      s := s.(readPending := false, readIndex := 0, readContext := 0, readAcks := {});
    }

    // ---------- the runtime's view ----------

    /** Hands over the queued messages. */
    method ReadMessages() returns (ms: seq<Message>)
      modifies this`out
      ensures ms == old(out) && out == []
    {
      ms := out;
      out := [];
    }

    method ShouldSnapshot(threshold: nat) returns (due: bool)
      requires Inv()
      ensures due == (threshold > 0 && s.offset + threshold <= s.applied)
    {
      due := threshold > 0 && s.applied >= s.offset && s.applied - s.offset >= threshold;
    }

    // ---------- dispatch ----------

    /** One received message: the handler by type, its answer queued behind the messages. */
    method Receive(m: Message, restored: bool) returns (ghost heardRecently: bool)
      requires Inv() && !thrown
      modifies this, wal
      ensures Inv() && Did(Replay.Receive(old(s), m, heardRecently, restored))
    {
      heardRecently := electionElapsed < electionTimeout;
      var r;
      match m {
        case RequestVote(_, _, _, _, _) =>
          r := HandleRequestVote(m);
          out := out + [r];
        case RequestVoteResponse(_, _, _, _) =>
          HandleRequestVoteResponse(m);
        case PreVote(_, _, _, _, _) =>
          WroteNothing(wal.durable, []);
          r := HandlePreVote(m);
          out := out + [r];
        case PreVoteResponse(_, _, _, _, _) =>
          HandlePreVoteResponse(m);
        case AppendEntries(_, _, _, _, _, _, _, _) =>
          r := HandleAppendEntries(m);
          out := out + [r];
        case AppendEntriesResponse(_, _, _, _, _, _) =>
          HandleAppendEntriesResponse(m);
        case InstallSnapshot(_, _, _, _, _, _) =>
          r := HandleInstallSnapshot(m, restored);
          out := out + [r];
        case InstallSnapshotResponse(_, _, _, _, _) =>
          HandleInstallSnapshotResponse(m);
      }
    }

    /** Start-up: takes over what recovery read.  Fails on a gap or a missing committed entry. */
    method Restore(d: Disk) returns (ok: bool)
      requires Inv() && Healthy() && s == Fresh(s.id)
      modifies this`s
      ensures ok == Restorable(Retained(d))
      ensures ok ==> Inv() && s == Replay.Restore(old(s).id, Retained(d)).(applied := d.snap.index)
    {
      s := s.(offset := d.snap.index, offsetTerm := d.snap.term, snapData := d.snap.state);
      var log: Log := [];
      var expected := d.snap.index + 1;
      for i := 0 to |d.entries|
        invariant log == Above(d.entries[..i], d.snap.index)
        invariant expected == d.snap.index + 1 + |log| && d.(entries := log).Contiguous()
      {
        assert d.entries[..i + 1][..i] == d.entries[..i];
        if d.entries[i].index > d.snap.index {
          if d.entries[i].index != expected {
            GapRemains(d, i);
            return false;
          }
          log := log + [d.entries[i]];
          expected := expected + 1;
        }
      }
      assert d.entries[..|d.entries|] == d.entries;
      s := s.(log := log, term := d.hs.term, vote := d.hs.vote, commit := Max(d.snap.index, d.hs.commit));
      if s.commit > s.Last() {
        return false;
      }
      s := s.(applied := d.snap.index);
      return true;
    }
  }

  /** The entries that a restart keeps: those after the snapshot. */
  function Above(entries: Log, index: nat): Log {
    if |entries| == 0 then []
    else
      var e := entries[|entries| - 1];
      Above(entries[..|entries| - 1], index) + if e.index > index then [e] else []
  }

  function Retained(d: Disk): Disk {
    d.(entries := Above(d.entries, d.snap.index))
  }

  lemma {:induction false} AbovePrefix(entries: Log, index: nat, i: nat)
    requires i <= |entries|
    ensures Above(entries[..i], index) <= Above(entries, index)
    decreases |entries|
  {
    if i < |entries| {
      AbovePrefix(entries[..|entries| - 1], index, i);
      assert entries[..|entries| - 1][..i] == entries[..i];
    } else {
      assert entries[..i] == entries;
    }
  }

  lemma GapRemains(d: Disk, i: nat)
    requires i < |d.entries| && d.entries[i].index > d.snap.index
    requires d.entries[i].index != d.snap.index + 1 + |Above(d.entries[..i], d.snap.index)|
    ensures !Retained(d).Contiguous()
  {
    var before := Above(d.entries[..i], d.snap.index);
    assert d.entries[..i + 1][..i] == d.entries[..i];
    assert Above(d.entries[..i + 1], d.snap.index) == before + [d.entries[i]];
    AbovePrefix(d.entries, d.snap.index, i + 1);
    assert Retained(d).entries[|before|] == d.entries[i];
  }

  /** Nothing is dropped from a log whose entries follow its snapshot. */
  lemma {:induction false} NothingBelow(entries: Log, index: nat)
    requires forall k :: 0 <= k < |entries| ==> entries[k].index > index
    ensures Above(entries, index) == entries
    decreases |entries|
  {
    if |entries| > 0 {
      NothingBelow(entries[..|entries| - 1], index);
    }
  }

  lemma RestorableRetained(d: Disk)
    requires Restorable(d)
    ensures Retained(d) == d
  {
    NothingBelow(d.entries, d.snap.index);
  }

  /** An entry above the snapshot is the next of those that a restart keeps. */
  lemma NextRetained(d: Disk, i: nat)
    requires i < |d.entries|
    ensures var k := |Above(d.entries[..i], d.snap.index)|;
            if d.entries[i].index > d.snap.index then
              && k < |Retained(d).entries| && Retained(d).entries[k] == d.entries[i]
              && |Above(d.entries[..i + 1], d.snap.index)| == k + 1
            else |Above(d.entries[..i + 1], d.snap.index)| == k
  {
    assert d.entries[..i + 1][..i] == d.entries[..i];
    AbovePrefix(d.entries, d.snap.index, i + 1);
  }
}
