/** The runtime object: the callbacks of the two loops as they update its fields.  Each is
    proved to do what `Runtime` says of it.
 */
module RuntimeCore {
  import opened Proto
  import opened RaftNode
  import opened Replay
  import opened Cluster
  import opened Kv
  import opened Runtime
  import opened RaftCore

  /** The messages that have a peer to go to. */
  function ToPeers(id: Id, ms: seq<Message>): seq<Message> {
    if |ms| == 0 then []
    else
      var m := ms[|ms| - 1];
      ToPeers(id, ms[..|ms| - 1]) + if IsMember(m.to) && m.to != id then [m] else []
  }

  function UpTo(ms: seq<Message>, room: nat): seq<Message> {
    if |ms| <= room then ms else ms[..room]
  }

  lemma {:induction false} ToPeersPrefix(id: Id, ms: seq<Message>, k: nat)
    requires k <= |ms|
    ensures ToPeers(id, ms[..k]) <= ToPeers(id, ms)
    decreases |ms|
  {
    if k < |ms| {
      ToPeersPrefix(id, ms[..|ms| - 1], k);
      assert ms[..|ms| - 1][..k] == ms[..k];
    } else {
      assert ms[..k] == ms;
    }
  }

  class NodeRuntime {
    const id: Id
    const raft: Raft
    const store: KvStore

    var storeApplied: nat
    var inFlight: Option<nat>
    var capturing: bool
    var blocked: Option<Message>
    var restoreDone: bool
    var raftQ: seq<RaftTask>
    var storeQ: seq<StoreTask>
    var writes: set<nat>
    var gets: map<nat, string>
    var rounds: seq<PendingRead>
    var stopped: bool
    var answers: seq<(nat, Reply)>
    var sent: seq<Message>  // what was handed to the transport

    ghost function View(): Rt
      reads this, store
    {
      Rt(store.data, storeApplied, inFlight, capturing, blocked, restoreDone, raftQ, storeQ, writes, gets, rounds,
         stopped)
    }

    constructor (id: Id, raft: Raft, store: KvStore)
      ensures View() == Started(store.data, 0) && answers == [] && sent == []
      ensures this.id == id && this.raft == raft && this.store == store
    {
      this.id, this.raft, this.store := id, raft, store;
      storeApplied, inFlight, capturing, blocked, restoreDone := 0, None, false, None, false;
      raftQ, storeQ, writes, gets, rounds, stopped, answers, sent := [], [], {}, map[], [], false, [], [];
    }

    // ---------- start-up ----------

    /** Loads the recovered snapshot into the store, the log into the core, and applies the committed
        entries after the snapshot.  Fails exactly on a gap or a missing committed entry, on
        unreadable snapshot data, or on a malformed committed command. */
    method RecoverStorage(d: Disk) returns (ok: bool)
      requires raft.Inv() && raft.Healthy() && raft.s == Fresh(id) && storeApplied == 0 && store.data == map[]
      modifies this`storeApplied, store, raft`s
      ensures Restorable(d) ==> Retained(d) == d
      ensures var r := Retained(d); ok <==> Restorable(r) && Replayable(r)
      ensures var r := Retained(d);
              ok ==>
                  raft.Inv() && raft.s == Replay.Restore(id, r) && store.data == Recovered(r)
                      && storeApplied == r.Commit()
    {
      if Restorable(d) { RestorableRetained(d); }
      if d.snap.index > 0 {
        if d.snap.state.None? {
          return false;
        }
        store.Deserialize(d.snap.state.value);
        storeApplied := d.snap.index;
      }
      var restored := raft.Restore(d);
      if !restored {
        return false;
      }
      var replayed := ReplayCommitted(d);
      ok := replayed && storeApplied == raft.s.commit;
    }

    /** The entries of `r` that are replayed. */
    ghost function Due(r: Disk): Log
      requires Restorable(r)
    {
      r.entries[..r.Commit() - r.snap.index]
    }

    /** Applies the committed entries after the snapshot, up to the first that is malformed. */
    method ReplayCommitted(d: Disk) returns (ok: bool)
      requires raft.Inv() && Restorable(Retained(d)) && storeApplied == d.snap.index
      requires raft.s == Replay.Restore(id, Retained(d)).(applied := d.snap.index)
      modifies this`storeApplied, store, raft`s
      ensures ok <==> forall k :: 0 <= k < |Due(Retained(d))| ==> Due(Retained(d))[k].Fits()
      ensures ok ==> raft.Inv() && raft.s == Replay.Restore(id, Retained(d))
      ensures ok ==> store.data == FoldFrom(old(store.data), Due(Retained(d))) && storeApplied == Retained(d).Commit()
    {
      ghost var r := Retained(d);
      ghost var due, start, k := Due(r), store.data, 0;
      var commit, i := raft.s.commit, 0;
      while i < |d.entries|
        invariant i <= |d.entries| && k == |Above(d.entries[..i], d.snap.index)| <= |due|
        invariant raft.Inv() && raft.s == Replay.Restore(id, r).(applied := r.snap.index + k)
        invariant storeApplied == r.snap.index + k && store.data == FoldFrom(start, due[..k])
        invariant forall x :: 0 <= x < k ==> due[x].Fits()
      {
        var e := d.entries[i];
        NextRetained(d, i);
        if e.index > d.snap.index {
          if e.index > commit {
            break;
          }
          assert e == due[k] && due[..k + 1][..k] == due[..k];
          var applied := ApplyRecovered(e);
          if !applied {
            return false;
          }
          k := k + 1;
        }
        i := i + 1;
      }
      assert d.entries[..|d.entries|] == d.entries;
      assert k == |due| && due[..|due|] == due;
      return true;
    }

    method ApplyRecovered(e: Entry) returns (ok: bool)
      requires raft.Inv()
      modifies this`storeApplied, store, raft`s
      ensures ok <==> e.index == old(storeApplied) + 1 && e.Fits()
      ensures ok ==> store.data == ApplyEntry(old(store.data), e) && storeApplied == e.index
      ensures raft.Inv() && (ok ==> raft.s == RaftNode.Advance(old(raft.s), e.index))
    {
      if e.index != storeApplied + 1 {
        return false;
      }
      if e.data.Some? {
        var affected := store.Apply(e.data.value);
        if affected.None? {
          return false;
        }
      }
      storeApplied := e.index;
      raft.Advance(e.index);
      return true;
    }

    // ---------- the Raft loop ----------

    /** Between two callbacks of a running process: nothing is queued for the transport. */
    ghost predicate Ready()
      reads this, raft, raft.wal
    {
      raft.Inv() && raft.Healthy() && raft.s.Valid() && raft.s.id == id && raft.out == [] && !stopped
    }

    /** The gate behind every callback: what an entry point of the core sends leaves the process
        only after all its records are durable.  If they are not, the process stops and sends
        nothing; if the transport is full, it stops after some first messages. */
    twostate predicate Gated(e: Effect)
      reads this, raft, raft.wal
    {
      && Wrote(old(raft.wal.durable), raft.wal.durable, e.records, raft.Healthy())
      && (!raft.Healthy() ==> stopped && sent == old(sent))
      && (raft.Healthy() ==> old(sent) <= sent <= old(sent) + ToPeers(id, e.msgs))
      && (!stopped ==> sent == old(sent) + ToPeers(id, e.msgs))
    }

    /** One callback of the Raft loop.  An exception that leaves the core ends the process. */
    method OnMessage(m: Message, restored: bool, room: nat, threshold: nat) returns (ghost heard: bool)
      requires Ready() && Numbered(m)
      modifies this, raft, raft.wal
      ensures raft.Inv() && Gated(Receive(old(raft.s), m, heard, restored))
    {
      ghost var n := raft.s;
      heard := raft.Receive(m, restored);
      ReceiveKeepsOrder(n, m, heard, restored);
      Conclude(Receive(n, m, heard, restored), raft.wal.durable, room, threshold);
    }

    method OnTick(room: nat, threshold: nat) returns (fires: bool)
      requires Ready()
      modifies this, raft
      ensures raft.Inv() && Gated(Tick(old(raft.s), fires))
    {
      ghost var n := raft.s;
      fires := raft.Tick();
      OwnKeepsOrder(n, DoTick(fires));
      Conclude(Tick(n, fires), raft.wal.durable, room, threshold);
    }

    method OnPropose(room: nat, threshold: nat)
      requires Ready() && raftQ != [] && raftQ[0].ProposeTask?
      modifies this, raft, raft.wal
      ensures raft.Inv() && Gated(Propose(old(raft.s), Some(old(raftQ)[0].cmd)).effect)
    {
      ghost var e := Propose(raft.s, Some(raftQ[0].cmd)).effect;
      ProposeKeepsOrder(raft.s, Some(raftQ[0].cmd));
      RunPropose();
      Conclude(e, raft.wal.durable, room, threshold);
    }

    method OnRead(room: nat, threshold: nat)
      requires Ready() && raftQ != [] && raftQ[0].ReadTask?
      modifies this, raft, raft.wal
      ensures raft.Inv() && Gated(ReadIndex(old(raft.s)).effect)
    {
      ghost var e := ReadIndex(raft.s).effect;
      ReadKeepsOrder(raft.s);
      RunRead();
      Conclude(e, raft.wal.durable, room, threshold);
    }

    method OnCaptured(room: nat, threshold: nat)
      requires Ready() && raftQ != [] && raftQ[0].Captured?
      modifies this, raft, raft.wal
      ensures raft.Inv() && Gated(TakeSnapshot(old(raft.s), old(raftQ)[0].index, Some(old(raftQ)[0].state)))
    {
      ghost var e := TakeSnapshot(raft.s, raftQ[0].index, Some(raftQ[0].state));
      OwnKeepsOrder(raft.s, DoTakeSnapshot(raftQ[0].index, Some(raftQ[0].state)));
      RunCaptured();
      Conclude(e, raft.wal.durable, room, threshold);
    }

    /** The gate behind an acknowledgment, which writes and sends nothing of its own. */
    method OnAck(room: nat, threshold: nat)
      requires Ready() && raftQ != [] && raftQ[0].Ack?
      modifies this, raft
      ensures raft.Inv() && Gated(Effect(raft.s, [], []))
      ensures !InOrder(old(View()), old(raft.s), old(raftQ)[0].index) ==>
                raft.s == old(raft.s) && View() == Unordered(old(View()), old(raft.s))
    {
      OwnKeepsOrder(raft.s, DoAdvance(raftQ[0].index));
      WroteNothing(raft.wal.durable, []);
      var advanced := TakeAck();
      if advanced {
        Conclude(Effect(raft.s, [], []), raft.wal.durable, room, threshold);
      }
    }

    /** Proposes the command at the head of the queue; a refusal goes to the store loop. */
    method RunPropose()
      requires raft.Inv() && raft.Healthy() && raft.s.Valid() && raftQ != [] && raftQ[0].ProposeTask?
      modifies this`raftQ, this`storeQ, raft, raft.wal
      ensures raft.Inv() && raft.Did(Propose(old(raft.s), Some(old(raftQ)[0].cmd)).effect)
      ensures raft.Healthy() ==> View() == AfterAct(old(View()), old(raft.s), DoPropose(Some(old(raftQ)[0].cmd)))
      ensures !raft.Healthy() && !raft.thrown ==>
                View() == old(View()).(raftQ := old(raftQ)[1..],
                                       storeQ := old(storeQ) + Failed(old(View()), DoPropose(Some(old(raftQ)[0].cmd))))
    {
      var cmd := raftQ[0].cmd;
      raftQ := raftQ[1..];
      var index := raft.Propose(Some(cmd));
      if raft.thrown {
        return;
      }
      if index.None? {
        storeQ := storeQ + [if raft.Healthy() then StoreTask.RejectWrite(cmd.request) else FailWrite(cmd.request)];
      }
    }

    /** Opens or joins a round for the read at the head of the queue; a refusal goes to the store loop. */
    method RunRead()
      requires raft.Inv() && raft.Healthy() && raft.s.Valid() && raftQ != [] && raftQ[0].ReadTask?
      modifies this`raftQ, this`storeQ, this`rounds, raft, raft.wal
      ensures raft.Inv() && raft.Did(ReadIndex(old(raft.s)).effect)
      ensures raft.Healthy() ==> View() == AfterAct(old(View()), old(raft.s), DoReadIndex)
      ensures !raft.Healthy() && !raft.thrown ==>
                View() == old(View()).(raftQ := old(raftQ)[1..],
                                       storeQ := old(storeQ) + Failed(old(View()), DoReadIndex))
    {
      var request := raftQ[0].request;
      raftQ := raftQ[1..];
      var token := raft.ReadIndex();
      if raft.thrown {
        return;
      }
      if token.None? {
        storeQ := storeQ + [RejectRead(request)];
      } else {
        rounds := rounds + [PendingRead(request, token.value)];
      }
    }

    /** Stores the snapshot at the head of the queue. */
    method RunCaptured()
      requires raft.Inv() && raft.Healthy() && raft.s.Valid() && raftQ != [] && raftQ[0].Captured?
      modifies this`raftQ, this`capturing, raft, raft.wal
      ensures raft.Inv() && raft.Did(TakeSnapshot(old(raft.s), old(raftQ)[0].index, Some(old(raftQ)[0].state)))
      ensures raft.Healthy() ==>
                View() == AfterAct(old(View()), old(raft.s),
                                   DoTakeSnapshot(old(raftQ)[0].index, Some(old(raftQ)[0].state)))
    {
      var task := raftQ[0];
      raftQ := raftQ[1..];
      capturing := false;
      raft.TakeSnapshot(task.index, Some(task.state));
    }

    /** Gives up the pending read at the head of the queue, and its round if no other read uses it. */
    method CancelRaftRead()
      requires raft.Inv() && raftQ != [] && raftQ[0].CancelRead?
      modifies this`raftQ, this`rounds, raft`s
      ensures raft.Inv() && View() == Cancelled(old(View()))
      ensures var token := SoleToken(old(rounds), old(raftQ)[0].request);
              raft.s == if token.Some? then RaftNode.FinishReadIndex(old(raft.s), token.value) else old(raft.s)
    {
      var request := raftQ[0].request;
      raftQ := raftQ[1..];
      var others: seq<PendingRead>, sole: Option<ReadToken> := [], None;
      for k := 0 to |rounds|
        invariant others == WithoutRequest(rounds[..k], request) && sole == SoleToken(rounds[..k], request)
      {
        assert rounds[..k + 1][..k] == rounds[..k];
        var p := rounds[k];
        if p.request != request {
          others := others + [p];
          sole := if sole == Some(p.token) then None else sole;
        } else {
          sole := if p.token in TokensOf(rounds[..k]) then None else Some(p.token);
        }
      }
      assert rounds[..|rounds|] == rounds;
      rounds := others;
      if sole.Some? {
        raft.FinishReadIndex(sole.value);
      }
    }

    /** Ends a callback whose entry point did `e` and left the durable records `durable`. */
    method Conclude(ghost e: Effect, ghost durable: seq<Record>, room: nat, threshold: nat)
      requires raft.Inv() && e.node.Valid() && raft.wal.durable == durable
      requires raft.Healthy() ==> raft.s == e.node && raft.out == e.msgs
      modifies this, raft`s, raft`out
      ensures raft.Inv() && raft.wal.durable == durable && raft.Healthy() == old(raft.Healthy())
      ensures !raft.Healthy() ==> stopped && sent == old(sent)
      ensures raft.Healthy() ==> old(sent) <= sent <= old(sent) + ToPeers(id, e.msgs)
      ensures !stopped ==> sent == old(sent) + ToPeers(id, e.msgs)
    {
      if raft.thrown {
        stopped := true;
        return;
      }
      var polled, captures := AfterRaftActivity(room, threshold);
    }

    /** Hands the queued messages to the transport, which has room for `room` more. */
    method FlushRaftMessages(room: nat)
      requires raft.Inv()
      modifies raft`out, this`sent, this`stopped
      ensures raft.out == []
      ensures sent == old(sent) + UpTo(ToPeers(id, old(raft.out)), room)
      ensures stopped <==> old(stopped) || |ToPeers(id, old(raft.out))| > room
    {
      var ms := raft.ReadMessages();
      var used := 0;
      for k := 0 to |ms|
        invariant used == |ToPeers(id, ms[..k])| <= room
        invariant sent == old(sent) + ToPeers(id, ms[..k]) && stopped == old(stopped) && raft.out == []
      {
        assert ms[..k + 1][..k] == ms[..k];
        ToPeersPrefix(id, ms, k + 1);
        if IsMember(ms[k].to) && ms[k].to != id {
          if used == room {
            stopped := true;
            return;
          }
          sent := sent + [ms[k]];
          used := used + 1;
        }
      }
      assert ms[..|ms|] == ms;
    }

    /** The end of every callback of the Raft loop. */
    method AfterRaftActivity(room: nat, threshold: nat) returns (ghost polled: Polled, ghost captures: bool)
      requires raft.Inv() && !raft.thrown && (raft.Healthy() ==> raft.s.Valid())
      modifies this, raft`s, raft`out
      ensures raft.Inv() && answers == old(answers)
      ensures raft.storageFailed ==>
                sent == old(sent) && raft.out == old(raft.out) && raft.s == old(raft.s)
                    && View() == old(View()).(stopped := true)
      ensures !raft.storageFailed ==>
                && sent == old(sent) + UpTo(ToPeers(id, old(raft.out)), room)
                && (stopped <==> old(stopped) || |ToPeers(id, old(raft.out))| > room)
                && View().(stopped := old(stopped)) == AfterActivity(old(View()), old(raft.s), polled, captures)
                && raft.s == (if polled.Finished? then RaftNode.FinishReadIndex(old(raft.s), polled.read)
                              else old(raft.s))
    {
      polled, captures := Waiting, false;
      if raft.storageFailed {
        stopped := true;
        return;
      }
      DispatchNext();
      var found := PollReadIndexes();
      var due := MaybeCapture(threshold);
      FlushRaftMessages(room);
      polled, captures := found, due;
    }

    method DispatchNext()
      requires raft.Inv() && raft.s.Valid()
      modifies this`inFlight, this`storeQ
      ensures View() == Dispatch(old(View()), raft.s)
    {
      if inFlight.Some? || stopped {
        return;
      }
      var e := raft.NextEntryToApply();
      if e.None? {
        return;
      }
      inFlight := Some(e.value.index);
      storeQ := storeQ + [ApplyTask(e.value)];
    }

    /** Starts a capture if one is due and none is under way. */
    method MaybeCapture(threshold: nat) returns (ghost due: bool)
      requires raft.Inv()
      modifies this`capturing, this`storeQ
      ensures due == (threshold > 0 && raft.s.offset + threshold <= raft.s.applied)
      ensures View() == if due then Capture(old(View())) else old(View())
    {
      var grown := raft.ShouldSnapshot(threshold);
      due := grown;
      if capturing || !grown {
        return;
      }
      capturing := true;
      storeQ := storeQ + [CaptureTask];
    }

    /** Takes the acknowledgment at the head of the Raft loop's queue. */
    method TakeAck() returns (advanced: bool)
      requires raft.Inv() && raft.s.Valid() && raftQ != [] && raftQ[0].Ack?
      modifies this`raftQ, this`inFlight, this`stopped, raft`s
      ensures raft.Inv()
      ensures var index := old(raftQ)[0].index;
              if InOrder(old(View()), old(raft.s), index) then
                && raft.s == Advance(old(raft.s), index)
                    && View() == AfterAct(old(View()), old(raft.s), DoAdvance(index))
                && (advanced <==> raft.s.applied == index)
              else
                !advanced && raft.s == old(raft.s) && View() == Unordered(old(View()), old(raft.s))
    {
      var index := raftQ[0].index;
      raftQ := raftQ[1..];
      if index <= raft.s.applied {
        return false;
      }
      if inFlight != Some(index) || index != raft.s.applied + 1 {
        stopped := true;
        return false;
      }
      raft.Advance(index);
      advanced := raft.s.applied == index;
      if !advanced {
        stopped := true;
      }
      inFlight := None;
    }

    /** Finds a round that is ready, ends it and hands its reads to the store loop. */
    method PollReadIndexes() returns (polled: Polled)
      requires raft.Inv() && raft.Healthy() && raft.s.Valid()
      modifies this`rounds, this`storeQ, raft`s
      ensures raft.Inv()
      ensures match polled
              case Waiting =>
                && raft.s == old(raft.s) && View() == old(View()) && (rounds != [] ==> raft.s.role.Leader?)
                && forall k :: 0 <= k < |rounds| ==> !RaftNode.ReadIndexReady(raft.s, rounds[k].token)
              case Dropped =>
                !raft.s.role.Leader? && raft.s == old(raft.s) && View() == DropReads(old(View()))
              case Finished(read) =>
                && RaftNode.ReadIndexReady(old(raft.s), read) && read in TokensOf(old(rounds))
                && raft.s == RaftNode.FinishReadIndex(old(raft.s), read)
                && View() == AfterAct(old(View()), old(raft.s), DoFinishReadIndex(read))
    {
      if rounds == [] {
        return Waiting;
      }
      if !raft.s.role.Leader? {
        RejectReads();
        return Dropped;
      }
      var ready := FindReady();
      if ready.None? {
        return Waiting;
      }
      var read := rounds[ready.value].token;
      assert rounds[ready.value] in rounds;
      CompleteRound(read);
      raft.FinishReadIndex(read);
      return Finished(read);
    }

    /** Position of the first pending read whose round is ready. */
    method FindReady() returns (found: Option<nat>)
      requires raft.Inv() && raft.Healthy()
      ensures found.Some? ==> found.value < |rounds| && RaftNode.ReadIndexReady(raft.s, rounds[found.value].token)
      ensures found.None? ==> forall k :: 0 <= k < |rounds| ==> !RaftNode.ReadIndexReady(raft.s, rounds[k].token)
    {
      for k := 0 to |rounds|
        invariant forall x :: 0 <= x < k ==> !RaftNode.ReadIndexReady(raft.s, rounds[x].token)
      {
        var ready := raft.ReadIndexReady(rounds[k].token);
        if ready {
          return Some(k);
        }
      }
      return None;
    }

    method RejectReads()
      modifies this`rounds, this`storeQ
      ensures View() == DropReads(old(View()))
    {
      var tasks: seq<StoreTask> := [];
      for k := 0 to |rounds|
        invariant tasks == Refused(rounds)[..k]
      {
        tasks := tasks + [RejectRead(rounds[k].request)];
      }
      storeQ := storeQ + tasks;
      rounds := [];
    }

    /** Splits the pending reads into those of the ready round and the others. */
    method CompleteRound(read: ReadToken)
      modifies this`rounds, this`storeQ
      ensures View() == old(View()).(rounds := Without(old(rounds), read),
                                     storeQ := old(storeQ) + Served(old(rounds), read, raft.s.applied))
    {
      var others: seq<PendingRead> := [];
      var tasks: seq<StoreTask> := [];
      for k := 0 to |rounds|
        invariant others == Without(rounds[..k], read) && tasks == Served(rounds[..k], read, raft.s.applied)
      {
        assert rounds[..k + 1][..k] == rounds[..k];
        if rounds[k].token == read {
          tasks := tasks + [ServeRead(rounds[k].request, raft.s.applied)];
        } else {
          others := others + [rounds[k]];
        }
      }
      assert rounds[..|rounds|] == rounds;
      rounds := others;
      storeQ := storeQ + tasks;
    }

    // ---------- the store loop ----------

    method ApplyCommittedEntry(e: Entry)
      modifies this`storeApplied, this`raftQ, this`writes, this`stopped, this`answers, store
      ensures var turn := ApplyCommitted(id, old(View()), e);
              View() == turn.rt && answers == old(answers) + turn.answers
    {
      if stopped {
        return;
      }
      if e.index <= storeApplied {
        raftQ := raftQ + [Ack(e.index)];
        return;
      }
      if e.index != storeApplied + 1 {
        stopped := true;
        return;
      }
      if e.data.Some? {
        var affected := store.Apply(e.data.value);
        if affected.None? {
          stopped := true;
          return;
        }
        if e.data.value.origin == id {
          CompleteWrite(e.data.value.request, e.index, affected.value);
        }
      }
      storeApplied := e.index;
      raftQ := raftQ + [Ack(e.index)];
    }

    method CompleteWrite(request: nat, index: nat, affected: nat)
      modifies this`writes, this`answers
      ensures writes == old(writes) - {request}
      ensures answers == old(answers) + if request in old(writes) then [(request, Done(index, affected))] else []
    {
      if request !in writes {
        return;
      }
      writes := writes - {request};
      answers := answers + [(request, Done(index, affected))];
    }

    method RejectWrite(request: nat, reply: Reply)
      modifies this`writes, this`answers
      ensures writes == old(writes) - {request}
      ensures answers == old(answers) + if request in old(writes) then [(request, reply)] else []
    {
      if request !in writes {
        return;
      }
      writes := writes - {request};
      answers := answers + [(request, reply)];
    }

    method RejectGet(request: nat, reply: Reply)
      modifies this`gets, this`answers
      ensures gets == old(gets) - {request}
      ensures answers == old(answers) + if request in old(gets) then [(request, reply)] else []
    {
      if request !in gets {
        return;
      }
      gets := gets - {request};
      answers := answers + [(request, reply)];
    }

    method CompleteRead(request: nat)
      modifies this`gets, this`answers
      ensures gets == old(gets) - {request}
      ensures answers == old(answers) +
                if request !in old(gets) then []
                else [(request, Value(if old(gets)[request] in store.data then Some(store.data[old(gets)[request]])
                                      else None))]
    {
      if request !in gets {
        return;
      }
      var value := store.Get(gets[request]);
      gets := gets - {request};
      answers := answers + [(request, Value(value))];
    }

    /** Runs the callback at the head of the store loop's queue. */
    method RunStoreTask()
      requires storeQ != []
      modifies this, store
      ensures var turn := ServeHead(id, old(View()));
              View() == turn.rt && answers == old(answers) + turn.answers
    {
      var task := storeQ[0];
      storeQ := storeQ[1..];
      if task.ApplyTask? {
        ApplyCommittedEntry(task.entry);
      } else if task.CaptureTask? || task.RestoreTask? {
        RunStateTask(task);
      } else {
        RunReplyTask(task);
      }
    }

    method RunStateTask(task: StoreTask)
      requires task.CaptureTask? || task.RestoreTask?
      modifies this`raftQ, this`storeApplied, this`restoreDone, store
      ensures var turn := ServeTask(id, old(View()), task); View() == turn.rt && turn.answers == []
    {
      if task.CaptureTask? {
        CaptureState();
      } else {
        RestoreState(task.index, task.state);
      }
    }

    method RunReplyTask(task: StoreTask)
      requires task.RejectWrite? || task.FailWrite? || task.RejectRead? || task.ServeRead?
      modifies this`writes, this`gets, this`answers
      ensures var turn := ServeTask(id, old(View()), task); View() == turn.rt && answers == old(answers) + turn.answers
    {
      match task {
        case RejectWrite(request) => RejectWrite(request, NotLeader);
        case FailWrite(request) => RejectWrite(request, TryAgain);
        case RejectRead(request) => RejectGet(request, NotLeader);
        case ServeRead(request, _) => CompleteRead(request);
      }
    }

    method CaptureState()
      modifies this`raftQ
      ensures raftQ == old(raftQ) + [Captured(storeApplied, store.data)]
    {
      var state := store.Serialize();
      raftQ := raftQ + [Captured(storeApplied, state)];
    }

    /** Empty snapshot data cannot be read and changes nothing. */
    method RestoreState(index: nat, state: Option<Store>)
      modifies this`storeApplied, this`restoreDone, store
      ensures if state.None? then
                storeApplied == old(storeApplied) && restoreDone == old(restoreDone) && store.data == old(store.data)
              else storeApplied == index && restoreDone && store.data == state.value
    {
      if state.Some? {
        store.Deserialize(state.value);
        storeApplied := index;
        restoreDone := true;
      }
    }

    // ---------- clients ----------

    method BeginWrite(c: Command)
      modifies this`writes, this`raftQ
      ensures View() == Runtime.BeginWrite(old(View()), c)
    {
      writes := writes + {c.request};
      raftQ := raftQ + [ProposeTask(c)];
    }

    method BeginRead(request: nat, key: string)
      modifies this`gets, this`raftQ
      ensures View() == Runtime.BeginRead(old(View()), request, key)
    {
      gets := gets[request := key];
      raftQ := raftQ + [ReadTask(request)];
    }
  }
}
