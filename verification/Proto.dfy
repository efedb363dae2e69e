/** The values that nodes store and exchange: log entries, commands, messages.

    MessagePack is taken to be lossless, so a packed command, entry or key-value
    map is represented by the value itself; `None` stands for the empty byte
    vector, which the code tests for.  Terms, indexes and read contexts are
    unbounded naturals.
 */
module Proto {

  datatype Option<+T> = None | Some(value: T)

  /** The fixed members of the cluster. */
  type Id = n: nat | 1 <= n <= 3 witness 1

  predicate IsMember(n: nat) {
    1 <= n <= 3
  }

  function Max(a: nat, b: nat): nat {
    if a < b then b else a
  }

  function Min(a: nat, b: nat): nat {
    if a < b then a else b
  }

  /** More than one element means one other than `x`. */
  lemma OtherMember(s: set<nat>, x: nat) returns (y: nat)
    requires |s| > 1
    ensures y in s && y != x
  {
    if forall z :: z in s ==> z == x {
      assert s <= {x};
      Subsets(s, {x});
    }
    y :| y in s && y != x;
  }

  lemma Subsets(a: set<nat>, b: set<nat>)
    requires a <= b
    ensures |a| <= |b|
  {
    if a != {} {
      var x :| x in a;
      Subsets(a - {x}, b - {x});
    }
  }

  // ---------- the replicated commands ----------

  datatype CommandType = Set | Del

  datatype Command = Command(kind: CommandType, strs: seq<string>, origin: nat, request: nat) {
    /** What the client front end checks before it replicates a command. */
    predicate WellFormed() {
      if kind.Set? then |strs| == 2 else |strs| >= 1
    }
  }

  type Store = map<string, string>

  // ---------- the log ----------

  datatype Entry = Entry(term: nat, index: nat, data: Option<Command>) {
    /** The entry is a no-op or carries a command that the store accepts. */
    predicate Fits() {
      data.Some? ==> data.value.WellFormed()
    }
  }

  type Log = seq<Entry>

  function LastTerm(log: Log): nat {
    if |log| == 0 then 0 else log[|log| - 1].term
  }

  /** `a` and `b` both reach length `k` and hold the same first `k` entries. */
  predicate Agree(a: Log, b: Log, k: nat) {
    k <= |a| && k <= |b| && forall i :: 0 <= i < k ==> a[i] == b[i]
  }

  // ---------- write-ahead-log records ----------

  datatype HardState = HardState(term: nat, vote: nat, commit: nat)

  datatype SnapshotMeta = SnapshotMeta(index: nat, term: nat, state: Option<Store>, discardSuffix: bool)

  datatype Record =
    | HardStateRecord(hs: HardState)
    | EntryRecord(entry: Entry)
    | SnapshotRecord(snap: SnapshotMeta)

  // ---------- messages ----------

  datatype Message =
    | RequestVote(from: nat, to: nat, term: nat, lastIndex: nat, lastTerm: nat)
    | RequestVoteResponse(from: nat, to: nat, term: nat, granted: bool)
    | PreVote(from: nat, to: nat, term: nat, lastIndex: nat, lastTerm: nat)
    | PreVoteResponse(from: nat, to: nat, term: nat, granted: bool, preVoteTerm: nat)
    | AppendEntries(from: nat, to: nat, term: nat, prevIndex: nat, prevTerm: nat,
                    entries: Log, leaderCommit: nat, context: nat)
    | AppendEntriesResponse(from: nat, to: nat, term: nat, success: bool, matchIndex: nat, context: nat)
    | InstallSnapshot(from: nat, to: nat, term: nat, snapIndex: nat, snapTerm: nat, snapData: Option<Store>)
    | InstallSnapshotResponse(from: nat, to: nat, term: nat, success: bool, matchIndex: nat)
}
