/** Recovery: what the records of a write-ahead log mean, and the node that restarts from
    them.  The main result, `WalRefinement`, is that the records every entry point writes
    keep the log's meaning equal to the node's memory, record by record.
 */
module Replay {
  import opened Proto
  import opened RaftNode

  /** The result of reading a log: last hard state, retained entries, last snapshot. */
  datatype Disk = Disk(hs: HardState, entries: Log, snap: SnapshotMeta) {
    function Commit(): nat {
      Max(snap.index, hs.commit)
    }

    /** Entries are consecutive and start right after the snapshot. */
    predicate Contiguous() {
      forall k :: 0 <= k < |entries| ==> entries[k].index == snap.index + k + 1
    }
  }

  const EMPTY_DISK := Disk(HardState(0, 0, 0), [], SnapshotMeta(0, 0, None, false))

  /** The entries before the first one whose index is at least `index`. */
  function Below(entries: Log, index: nat): (kept: Log)
    ensures |kept| <= |entries| && kept == entries[..|kept|]
    ensures forall k :: 0 <= k < |kept| ==> entries[k].index < index
    ensures |kept| < |entries| ==> entries[|kept|].index >= index
  {
    if |entries| == 0 || entries[0].index >= index then [] else [entries[0]] + Below(entries[1..], index)
  }

  function ApplyRecord(d: Disk, r: Record): Disk {
    match r
    case HardStateRecord(hs) => d.(hs := hs)
    case EntryRecord(e) => d.(entries := Below(d.entries, e.index) + [e])
    case SnapshotRecord(s) =>
      d.(snap := s, entries := if s.discardSuffix then [] else d.entries[|Below(d.entries, s.index + 1)|..])
  }

  function ApplyAll(d: Disk, rs: seq<Record>): Disk {
    if |rs| == 0 then d else ApplyRecord(ApplyAll(d, rs[..|rs| - 1]), rs[|rs| - 1])
  }

  function Recover(rs: seq<Record>): Disk {
    ApplyAll(EMPTY_DISK, rs)
  }

  lemma {:induction false} ApplyAllConcat(d: Disk, a: seq<Record>, b: seq<Record>)
    ensures ApplyAll(d, a + b) == ApplyAll(ApplyAll(d, a), b)
  {
    if |b| == 0 {
      assert a + b == a;
    } else {
      assert (a + b)[..|a + b| - 1] == a + b[..|b| - 1];
      ApplyAllConcat(d, a, b[..|b| - 1]);
    }
  }

  lemma ApplyOne(d: Disk, r: Record)
    ensures ApplyAll(d, [r]) == ApplyRecord(d, r)
  {
    assert [r][..0] == [];
  }

  // ---------- restarting ----------

  /** `restore` raises no error. */
  predicate Restorable(d: Disk) {
    d.Contiguous() && d.Commit() <= d.snap.index + |d.entries|
  }

  /** The node after start-up has read `d` and replayed the committed entries. */
  function Restore(id: Id, d: Disk): Node {
    Fresh(id).(term := d.hs.term, vote := d.hs.vote, commit := d.Commit(), applied := d.Commit(),
               log := d.entries, offset := d.snap.index, offsetTerm := d.snap.term, snapData := d.snap.state)
  }

  /** Memory and disk hold the same term, vote, commit index, log, offset and snapshot. */
  predicate Mirrors(n: Node, d: Disk) {
    && n.term == d.hs.term
    && n.vote == d.hs.vote
    && n.commit == d.Commit()
    && n.log == d.entries
    && n.offset == d.snap.index
    && n.offsetTerm == d.snap.term
    && n.snapData == d.snap.state
  }

  lemma RestoreMirrors(id: Id, d: Disk)
    requires Restorable(d)
    ensures Restore(id, d).Valid() && Mirrors(Restore(id, d), d)
  {
  }

  // ---------- entry points as one action type ----------

  datatype Action =
    | DoTick(fires: bool)
    | DoReceive(msg: Message, heardRecently: bool, restored: bool)
    | DoPropose(data: Option<Command>)
    | DoAdvance(index: nat)
    | DoTakeSnapshot(upTo: nat, state: Option<Store>)
    | DoReadIndex
    | DoFinishReadIndex(read: ReadToken)

  function Receive(n: Node, m: Message, heardRecently: bool, restored: bool): Effect
  {
    match m
    case RequestVote(_, _, _, _, _) => HandleRequestVote(n, m)
    case RequestVoteResponse(_, _, _, _) => HandleRequestVoteResponse(n, m)
    case PreVote(_, _, _, _, _) => HandlePreVote(n, m, heardRecently)
    case PreVoteResponse(_, _, _, _, _) => HandlePreVoteResponse(n, m)
    case AppendEntries(_, _, _, _, _, _, _, _) => HandleAppendEntries(n, m)
    case AppendEntriesResponse(_, _, _, _, _, _) => HandleAppendEntriesResponse(n, m)
    case InstallSnapshot(_, _, _, _, _, _) => HandleInstallSnapshot(n, m, restored)
    case InstallSnapshotResponse(_, _, _, _, _) => HandleInstallSnapshotResponse(n, m)
  }

  function Act(n: Node, a: Action): Effect
    requires n.Valid()
  {
    match a
    case DoTick(fires) => Tick(n, fires)
    case DoReceive(m, heard, restored) => Receive(n, m, heard, restored)
    case DoPropose(data) => Propose(n, data).effect
    case DoAdvance(index) => Effect(Advance(n, index), [], [])
    case DoTakeSnapshot(upTo, state) => TakeSnapshot(n, upTo, state)
    case DoReadIndex => ReadIndex(n).effect
    case DoFinishReadIndex(read) => Effect(FinishReadIndex(n, read), [], [])
  }

  /** A request's entries carry the indexes that their position implies. */
  predicate Numbered(m: Message) {
    m.AppendEntries? ==> forall i :: 0 <= i < |m.entries| ==> m.entries[i].index == m.prevIndex + i + 1
  }

  predicate Sound(a: Action) {
    a.DoReceive? ==> Numbered(a.msg)
  }

  // ---------- bookkeeping kept by every entry point ----------

  lemma MergeValid(n: Node, m: Message)
    requires n.Valid() && m.AppendEntries? && Numbered(m) && LogMatches(n, m.prevIndex, m.prevTerm)
    ensures var k := FirstNew(n, m.prevIndex, m.entries, 0);
            k < |m.entries| ==>
              && n.offset <= m.prevIndex + k <= n.Last()
              && (n.commit <= m.prevIndex + k ==>
                    Merge(n, m.prevIndex, m.entries, k).Valid()
                    && Merge(n, m.prevIndex, m.entries, k).Last() == m.prevIndex + |m.entries|)
  {
    var k := FirstNew(n, m.prevIndex, m.entries, 0);
    assert 0 < k ==> !IsNew(n, m.prevIndex, m.entries, k - 1);
  }

  ghost predicate Ordered(n: Node, n': Node) {
    && n'.Valid() && n'.id == n.id
    && n.offset <= n'.offset && n.applied <= n'.applied && n.commit <= n'.commit && n.term <= n'.term
  }

  lemma AppendKeepsOrder(n: Node, m: Message)
    requires n.Valid() && m.AppendEntries? && Numbered(m)
    ensures Ordered(n, HandleAppendEntries(n, m).node)
  {
    PreparedKeepsOrder(n, m.from, m.to, m.term);
    AppendPreparedKeepsOrder(PrepareForLeaderRpc(n, m.from, m.to, m.term).node, m);
  }

  lemma PreparedKeepsOrder(n: Node, from: nat, to: nat, t: nat)
    requires n.Valid()
    ensures Ordered(n, PrepareForLeaderRpc(n, from, to, t).node)
  {
  }

  lemma AppendPreparedKeepsOrder(p: Node, m: Message)
    requires p.Valid() && m.AppendEntries? && Numbered(m)
    ensures Ordered(p, AppendPrepared(p, m).node)
  {
    if LogMatches(p, m.prevIndex, m.prevTerm) { MergeValid(p, m); }
  }

  lemma ResponseKeepsOrder(n: Node, m: Message)
    requires n.Valid() && m.AppendEntriesResponse?
    ensures Ordered(n, HandleAppendEntriesResponse(n, m).node)
  {
  }

  lemma InstallKeepsOrder(n: Node, m: Message, restored: bool)
    requires n.Valid() && m.InstallSnapshot?
    ensures Ordered(n, HandleInstallSnapshot(n, m, restored).node)
  {
  }

  lemma ReceiveKeepsOrder(n: Node, m: Message, heard: bool, restored: bool)
    requires n.Valid() && Numbered(m)
    ensures Ordered(n, Receive(n, m, heard, restored).node)
  {
    match m
    case AppendEntries(_, _, _, _, _, _, _, _) => AppendKeepsOrder(n, m);
    case AppendEntriesResponse(_, _, _, _, _, _) => ResponseKeepsOrder(n, m);
    case InstallSnapshot(_, _, _, _, _, _) => InstallKeepsOrder(n, m, restored);
    case RequestVote(_, _, _, _, _) =>
    case RequestVoteResponse(_, _, _, _) =>
    case PreVote(_, _, _, _, _) =>
    case PreVoteResponse(_, _, _, _, _) =>
    case InstallSnapshotResponse(_, _, _, _, _) =>
  }

  /** Within one process lifetime the offset, the applied index, the commit index and the term
      never go back, and offset <= applied <= commit <= last always holds. */
  lemma ActKeepsOrder(n: Node, a: Action)
    requires n.Valid() && Sound(a)
    ensures Ordered(n, Act(n, a).node)
  {
    if a.DoReceive? {
      ReceiveKeepsOrder(n, a.msg, a.heardRecently, a.restored);
    } else {
      OwnKeepsOrder(n, a);
    }
  }

  lemma ProposeKeepsOrder(n: Node, data: Option<Command>)
    requires n.Valid()
    ensures Ordered(n, Propose(n, data).effect.node)
  {
  }

  lemma ReadKeepsOrder(n: Node)
    requires n.Valid()
    ensures Ordered(n, ReadIndex(n).effect.node)
  {
    if n.role.Leader? && !n.readPending {
      OpenedShape(n);
      ProposeKeepsOrder(Opened(n), None);
    }
  }

  lemma OwnKeepsOrder(n: Node, a: Action)
    requires n.Valid() && !a.DoReceive?
    ensures Ordered(n, Act(n, a).node)
  {
    match a
    case DoTick(_) =>
    case DoPropose(data) => ProposeKeepsOrder(n, data);
    case DoAdvance(_) =>
    case DoTakeSnapshot(_, _) =>
    case DoReadIndex => ReadKeepsOrder(n);
    case DoFinishReadIndex(_) =>
  }

  // ---------- memory equals replayed log ----------

  lemma BelowContiguous(d: Disk, index: nat)
    requires d.Contiguous() && d.snap.index < index <= d.snap.index + |d.entries| + 1
    ensures Below(d.entries, index) == d.entries[..index - d.snap.index - 1]
  {
    var kept := Below(d.entries, index);
    if |kept| < |d.entries| { assert d.entries[|kept|].index == d.snap.index + |kept| + 1; }
    if 0 < |kept| { assert d.entries[|kept| - 1].index == d.snap.index + |kept|; }
  }

  /** Writing consecutive entries truncates at the first one and appends them all. */
  lemma {:induction false} ReplayEntries(d: Disk, entries: Log)
    requires d.Contiguous() && |entries| > 0
    requires d.snap.index < entries[0].index <= d.snap.index + |d.entries| + 1
    requires forall i :: 0 <= i < |entries| ==> entries[i].index == entries[0].index + i
    ensures ApplyAll(d, EntryRecords(entries)) ==
            d.(entries := d.entries[..entries[0].index - d.snap.index - 1] + entries)
  {
    var rs := EntryRecords(entries);
    var last := |entries| - 1;
    assert rs[..last] == EntryRecords(entries[..last]);
    if last == 0 {
      ReplayFirst(d, entries[0]);
      assert rs[..0] == [] && entries == [entries[0]];
    } else {
      ReplayEntries(d, entries[..last]);
      ReplayNext(d, ApplyAll(d, rs[..last]), entries);
    }
  }

  lemma ReplayFirst(d: Disk, e: Entry)
    requires d.Contiguous() && d.snap.index < e.index <= d.snap.index + |d.entries| + 1
    ensures ApplyRecord(d, EntryRecord(e)) == d.(entries := d.entries[..e.index - d.snap.index - 1] + [e])
  {
    BelowContiguous(d, e.index);
  }

  /** The last of several consecutive entries lands behind the others. */
  lemma ReplayNext(d: Disk, mid: Disk, entries: Log)
    requires d.Contiguous() && |entries| > 1
    requires d.snap.index < entries[0].index <= d.snap.index + |d.entries| + 1
    requires forall i :: 0 <= i < |entries| ==> entries[i].index == entries[0].index + i
    requires mid == d.(entries := d.entries[..entries[0].index - d.snap.index - 1] + entries[..|entries| - 1])
    ensures ApplyRecord(mid, EntryRecord(entries[|entries| - 1])) ==
            d.(entries := d.entries[..entries[0].index - d.snap.index - 1] + entries)
  {
    var last := |entries| - 1;
    BelowContiguous(mid, entries[last].index);
    assert entries == entries[..last] + [entries[last]];
  }

  /** The disk after one hard-state record. */
  lemma ReplayHardState(d: Disk, n: Node)
    requires n.term > 0
    ensures SaveHardState(n) == [HardStateRecord(HardState(n.term, n.vote, n.commit))]
    ensures ApplyAll(d, SaveHardState(n)) == d.(hs := HardState(n.term, n.vote, n.commit))
  {
    ApplyOne(d, SaveHardState(n)[0]);
  }

  /** Preparing for a leader's request writes at most the new term, and mirrors it. */
  lemma PrepareMirrors(n: Node, d: Disk, from: nat, to: nat, t: nat)
    requires Mirrors(n, d) && n.Valid()
    ensures var r := PrepareForLeaderRpc(n, from, to, t);
            && r.node.Valid()
            && |r.records| <= 1
            && Mirrors(r.node, ApplyAll(d, r.records))
            && ApplyAll(d, r.records) == d.(hs := ApplyAll(d, r.records).hs)
  {
    if n.Accepts(from, to) && t > n.term { ReplayHardState(d, BecomeFollower(n, t, from).node); }
  }

  lemma StepDownMirrors(n: Node, d: Disk, t: nat, lead: nat)
    requires Mirrors(n, d) && n.Valid()
    ensures var e := BecomeFollower(n, t, lead);
            |e.records| <= 1 && Mirrors(e.node, ApplyAll(d, e.records))
  {
    if t > n.term { ReplayHardState(d, BecomeFollower(n, t, lead).node); }
  }

  lemma VoteMirrors(n: Node, d: Disk, m: Message)
    requires Mirrors(n, d) && n.Valid() && m.RequestVote?
    ensures var e := HandleRequestVote(n, m);
            Mirrors(e.node, ApplyAll(d, e.records))
  {
    if n.Accepts(m.from, m.to) {
      var moved := if m.term > n.term then BecomeFollower(n, m.term, 0) else Effect(n, [], []);
      StepDownMirrors(n, d, m.term, 0);
      var e := HandleRequestVote(n, m);
      if e.node != moved.node || e.records != moved.records {
        ApplyAllConcat(d, moved.records, SaveHardState(e.node));
        ApplyOne(ApplyAll(d, moved.records), SaveHardState(e.node)[0]);
      }
    }
  }

  lemma PreVoteResponseMirrors(n: Node, d: Disk, m: Message)
    requires Mirrors(n, d) && n.Valid() && m.PreVoteResponse?
    ensures var e := HandlePreVoteResponse(n, m);
            Mirrors(e.node, ApplyAll(d, e.records))
  {
    StepDownMirrors(n, d, m.term, 0);
    ReplayHardState(d, BecomeCandidate(n).node);
    ReplayHardState(d, BecomeCandidate(n.(preVotes := n.preVotes + {m.from})).node);
  }

  /** After the first `x` entries of a merge are written, the disk holds the log merged so far. */
  lemma MergeDisk(n: Node, d: Disk, m: Message, k: nat, x: nat)
    requires Mirrors(n, d) && n.Valid() && m.AppendEntries? && Numbered(m)
    requires k < |m.entries| && 1 <= x <= |m.entries| - k && n.offset <= m.prevIndex + k <= n.Last()
    ensures ApplyAll(d, EntryRecords(m.entries[k..])[..x]) ==
            d.(entries := n.log[..m.prevIndex + k - n.offset] + m.entries[k..k + x])
  {
    var es := m.entries[k..k + x];
    assert EntryRecords(m.entries[k..])[..x] == EntryRecords(es);
    forall i | 0 <= i < |es| ensures es[i].index == es[0].index + i {
      assert es[i] == m.entries[k + i];
    }
    ReplayEntries(d, es);
  }

  lemma MergeMirrors(p: Node, d: Disk, m: Message, k: nat)
    requires Mirrors(p, d) && p.Valid() && m.AppendEntries? && Numbered(m)
    requires k <= |m.entries| && (k < |m.entries| ==> p.offset <= m.prevIndex + k <= p.Last())
    ensures Mirrors(Merge(p, m.prevIndex, m.entries, k), ApplyAll(d, EntryRecords(m.entries[k..])))
  {
    if k < |m.entries| {
      var x := |m.entries| - k;
      MergeDisk(p, d, m, k, x);
      assert EntryRecords(m.entries[k..])[..x] == EntryRecords(m.entries[k..]);
      assert m.entries[k..k + x] == m.entries[k..];
    }
  }

  lemma CommitMirrors(q: Node, d: Disk, c: nat)
    requires Mirrors(q, d) && q.commit <= c
    ensures var r := q.(commit := c);
            Mirrors(r, ApplyAll(d, SaveHardState(r)))
  {
    if SaveHardState(q.(commit := c)) != [] { ApplyOne(d, SaveHardState(q.(commit := c))[0]); }
  }

  lemma AppendPreparedMirrors(p: Node, d: Disk, m: Message)
    requires Mirrors(p, d) && p.Valid() && m.AppendEntries? && Numbered(m)
    ensures var e := AppendPrepared(p, m);
            Mirrors(e.node, ApplyAll(d, e.records))
  {
    var k := FirstNew(p, m.prevIndex, m.entries, 0);
    if LogMatches(p, m.prevIndex, m.prevTerm) && !(k < |m.entries| && m.prevIndex + k + 1 <= p.commit) {
      MergeValid(p, m);
      MergeMirrors(p, d, m, k);
      var q := Merge(p, m.prevIndex, m.entries, k);
      var xs := EntryRecords(m.entries[k..]);
      if m.leaderCommit > q.commit {
        var c := Min(m.leaderCommit, q.Last());
        ApplyAllConcat(d, xs, SaveHardState(q.(commit := c)));
        assert q.commit <= c;
        CommitMirrors(q, ApplyAll(d, xs), c);
      } else {
        assert xs + [] == xs;
      }
    }
  }

  lemma AppendMirrors(n: Node, d: Disk, m: Message)
    requires Mirrors(n, d) && n.Valid() && m.AppendEntries? && Numbered(m)
    ensures var e := HandleAppendEntries(n, m);
            Mirrors(e.node, ApplyAll(d, e.records))
  {
    PrepareMirrors(n, d, m.from, m.to, m.term);
    var r := PrepareForLeaderRpc(n, m.from, m.to, m.term);
    AppendPreparedMirrors(r.node, ApplyAll(d, r.records), m);
    ApplyAllConcat(d, r.records, AppendPrepared(r.node, m).records);
  }

  lemma ResponseMirrors(n: Node, d: Disk, m: Message)
    requires Mirrors(n, d) && n.Valid() && m.AppendEntriesResponse?
    ensures var e := HandleAppendEntriesResponse(n, m);
            Mirrors(e.node, ApplyAll(d, e.records))
  {
    StepDownMirrors(n, d, m.term, 0);
    var e := HandleAppendEntriesResponse(n, m);
    ResponseKeepsOrder(n, m);
    if |e.records| > 0 && !(n.Accepts(m.from, m.to) && m.term > n.term) { ApplyOne(d, e.records[0]); }
  }

  lemma InstallMirrors(n: Node, d: Disk, m: Message, restored: bool)
    requires Mirrors(n, d) && n.Valid() && m.InstallSnapshot?
    ensures var e := HandleInstallSnapshot(n, m, restored);
            Mirrors(e.node, ApplyAll(d, e.records))
  {
    PrepareMirrors(n, d, m.from, m.to, m.term);
    var r := PrepareForLeaderRpc(n, m.from, m.to, m.term);
    var dr, e := ApplyAll(d, r.records), InstallPrepared(r.node, m, restored);
    ApplyAllConcat(d, r.records, e.records);
    if |e.records| > 0 {
      ApplyAllConcat(dr, [e.records[0]], SaveHardState(e.node));
      ApplyOne(dr, e.records[0]);
      ApplyOne(ApplyAll(dr, [e.records[0]]), SaveHardState(e.node)[0]);
    }
  }

  lemma TakeSnapshotMirrors(n: Node, d: Disk, index: nat, state: Option<Store>)
    requires Mirrors(n, d) && n.Valid()
    ensures var e := TakeSnapshot(n, index, state);
            Mirrors(e.node, ApplyAll(d, e.records))
  {
    var e := TakeSnapshot(n, index, state);
    if n.offset < index <= n.applied {
      CompactedDisk(d, SnapshotMeta(index, n.TermAt(index), state, false));
      ApplyOne(d, e.records[0]);
    }
  }

  /** A local snapshot drops exactly the entries up to its index. */
  lemma CompactedDisk(d: Disk, s: SnapshotMeta)
    requires d.Contiguous() && d.snap.index < s.index <= d.snap.index + |d.entries| && !s.discardSuffix
    ensures ApplyRecord(d, SnapshotRecord(s)) == d.(snap := s, entries := d.entries[s.index - d.snap.index..])
  {
    BelowContiguous(d, s.index + 1);
  }

  lemma ProposeMirrors(n: Node, d: Disk, data: Option<Command>)
    requires Mirrors(n, d) && n.Valid()
    ensures var e := Propose(n, data).effect;
            Mirrors(e.node, ApplyAll(d, e.records))
  {
    if n.role.Leader? {
      BelowContiguous(d, n.Last() + 1);
      ApplyOne(d, Propose(n, data).effect.records[0]);
    }
  }

  lemma ReadIndexMirrors(n: Node, d: Disk)
    requires Mirrors(n, d) && n.Valid()
    ensures var e := ReadIndex(n).effect;
            Mirrors(e.node, ApplyAll(d, e.records))
  {
    if n.role.Leader? && !n.readPending {
      OpenedShape(n);
      ProposeMirrors(Opened(n), d, None);
    }
  }

  lemma ReceiveMirrors(n: Node, d: Disk, m: Message, heard: bool, restored: bool)
    requires Mirrors(n, d) && n.Valid() && Numbered(m)
    ensures var e := Receive(n, m, heard, restored);
            Mirrors(e.node, ApplyAll(d, e.records))
  {
    match m
    case RequestVote(_, _, _, _, _) => VoteMirrors(n, d, m);
    case RequestVoteResponse(_, _, _, _) => StepDownMirrors(n, d, m.term, 0);
    case PreVote(_, _, _, _, _) =>
    case PreVoteResponse(_, _, _, _, _) => PreVoteResponseMirrors(n, d, m);
    case AppendEntries(_, _, _, _, _, _, _, _) => AppendMirrors(n, d, m);
    case AppendEntriesResponse(_, _, _, _, _, _) => ResponseMirrors(n, d, m);
    case InstallSnapshot(_, _, _, _, _, _) => InstallMirrors(n, d, m, restored);
    case InstallSnapshotResponse(_, _, _, _, _) => StepDownMirrors(n, d, m.term, 0);
  }

  /** After every entry point, replaying what it added to the log gives exactly the node's
      term, vote, commit index, log, offset, offset term and snapshot. */
  lemma WalRefinement(n: Node, d: Disk, a: Action)
    requires Mirrors(n, d) && n.Valid() && Sound(a)
    ensures var e := Act(n, a);
            Mirrors(e.node, ApplyAll(d, e.records))
  {
    match a
    case DoReceive(m, heard, restored) => ReceiveMirrors(n, d, m, heard, restored);
    case DoPropose(data) => ProposeMirrors(n, d, data);
    case DoTakeSnapshot(upTo, state) => TakeSnapshotMirrors(n, d, upTo, state);
    case DoReadIndex => ReadIndexMirrors(n, d);
    case DoTick(_) =>
    case DoAdvance(_) =>
    case DoFinishReadIndex(_) =>
  }
}
