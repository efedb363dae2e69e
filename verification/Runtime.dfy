/** One process: the Raft loop and the store loop, which exchange work through two FIFO queues.

    The functions give the effect of each callback on the queues, the store and the request
    tables.  What a callback does to the Raft core is an `Action` of `Replay`; which actions
    the Raft loop may run in which state is `Allowed`.

    `blocked` is the snapshot message whose restoration the Raft loop waits for.  `fence` in a
    `ServeRead` task records the applied index when it was posted; it is not used by the code.
    Clocks are left open: any pending request may expire at any time.
 */
module Runtime {
  import opened Proto
  import opened RaftNode
  import opened Replay
  import opened Cluster
  import opened Kv

  datatype RaftTask =
    | Ack(index: nat)
    | Captured(index: nat, state: Store)
    | ProposeTask(cmd: Command)
    | ReadTask(request: nat)
    | CancelRead(request: nat)

  datatype StoreTask =
    | ApplyTask(entry: Entry)
    | CaptureTask
    | RestoreTask(index: nat, state: Option<Store>)
    | RejectWrite(request: nat)
    | FailWrite(request: nat)
    | RejectRead(request: nat)
    | ServeRead(request: nat, fence: nat)

  datatype Reply =
    | Done(index: nat, affected: nat)
    | NotLeader
    | TryAgain
    | Value(value: Option<string>)

  datatype PendingRead = PendingRead(request: nat, token: ReadToken)

  datatype Rt = Rt(
    store: Store, storeApplied: nat, inFlight: Option<nat>, capturing: bool,
    blocked: Option<Message>, restoreDone: bool, raftQ: seq<RaftTask>, storeQ: seq<StoreTask>,
    writes: set<nat>, gets: map<nat, string>, rounds: seq<PendingRead>, stopped: bool)

  /** After start-up, with the store at the recovered commit index. */
  function Started(store: Store, applied: nat): Rt {
    Rt(store, applied, None, false, None, false, [], [], {}, map[], [], false)
  }

  // ---------- start-up and stopping ----------

  /** The replay of `recover_storage` finds its snapshot and only well-formed commands. */
  predicate Replayable(d: Disk)
    requires Restorable(d)
  {
    && (d.snap.index > 0 ==> d.snap.state.Some?)
    && forall k :: 0 <= k < d.Commit() - d.snap.index ==> d.entries[k].Fits()
  }

  /** The store after `recover_storage` has loaded the snapshot and replayed committed entries. */
  function Recovered(d: Disk): Store
    requires Restorable(d)
  {
    FoldFrom(if d.snap.index > 0 && d.snap.state.Some? then d.snap.state.value else map[],
             d.entries[..d.Commit() - d.snap.index])
  }

  /** The answer to a request whose records could not be written. */
  function Failed(rt: Rt, a: Action): seq<StoreTask> {
    if rt.raftQ == [] then []
    else if a.DoReadIndex? && rt.raftQ[0].ReadTask? then [RejectRead(rt.raftQ[0].request)]
    else if a.DoPropose? && rt.raftQ[0].ProposeTask? then [FailWrite(rt.raftQ[0].cmd.request)]
    else []
  }

  /** A process that stops itself inside action `a`: the Raft loop is over, the store loop goes on
      with what is queued. */
  function Stopping(rt: Rt, a: Action): Rt {
    rt.(stopped := true, raftQ := [], storeQ := rt.storeQ + Failed(rt, a))
  }

  // ---------- the Raft loop ----------

  function Dispatch(rt: Rt, n: Node): Rt
    requires n.Valid()
  {
    var e := NextEntryToApply(n);
    if rt.inFlight.Some? || rt.stopped || e.None? then rt
    else rt.(inFlight := Some(e.value.index), storeQ := rt.storeQ + [ApplyTask(e.value)])
  }

  function Capture(rt: Rt): Rt {
    if rt.capturing then rt else rt.(capturing := true, storeQ := rt.storeQ + [CaptureTask])
  }

  /** The acknowledgment at the head of the queue can be taken. */
  predicate InOrder(rt: Rt, n: Node, index: nat) {
    rt.inFlight == Some(index) && index == n.applied + 1
  }

  /** An acknowledgment that is not: a duplicate is dropped, anything else stops the process. */
  function Unordered(rt: Rt, n: Node): Rt
    requires rt.raftQ != [] && rt.raftQ[0].Ack?
  {
    rt.(raftQ := rt.raftQ[1..], stopped := rt.stopped || rt.raftQ[0].index > n.applied)
  }

  function TokensOf(ps: seq<PendingRead>): set<ReadToken> {
    set p | p in ps :: p.token
  }

  function Without(ps: seq<PendingRead>, token: ReadToken): seq<PendingRead> {
    if |ps| == 0 then []
    else
      var p := ps[|ps| - 1];
      Without(ps[..|ps| - 1], token) + if p.token == token then [] else [p]
  }

  function Served(ps: seq<PendingRead>, token: ReadToken, fence: nat): seq<StoreTask> {
    if |ps| == 0 then []
    else
      var p := ps[|ps| - 1];
      Served(ps[..|ps| - 1], token, fence) + if p.token == token then [ServeRead(p.request, fence)] else []
  }

  lemma {:induction false} ServedTasks(ps: seq<PendingRead>, token: ReadToken, fence: nat, k: nat)
    requires k < |Served(ps, token, fence)|
    ensures Served(ps, token, fence)[k].ServeRead? && Served(ps, token, fence)[k].fence == fence
  {
    if |ps| > 0 && k < |Served(ps[..|ps| - 1], token, fence)| {
      ServedTasks(ps[..|ps| - 1], token, fence, k);
    }
  }

  /** The token of a request that no other request uses. */
  function SoleToken(ps: seq<PendingRead>, request: nat): Option<ReadToken> {
    if |ps| == 0 then None
    else
      var p := ps[|ps| - 1];
      if p.request != request then
        var t := SoleToken(ps[..|ps| - 1], request);
        if t == Some(p.token) then None else t
      else if p.token in TokensOf(ps[..|ps| - 1]) then None
      else Some(p.token)
  }

  function WithoutRequest(ps: seq<PendingRead>, request: nat): seq<PendingRead> {
    if |ps| == 0 then []
    else
      var p := ps[|ps| - 1];
      WithoutRequest(ps[..|ps| - 1], request) + if p.request == request then [] else [p]
  }

  /** A cancelled read gives up its round, and ends it if no other read uses it. */
  function Cancelled(rt: Rt): Rt
    requires rt.raftQ != [] && rt.raftQ[0].CancelRead?
  {
    rt.(raftQ := rt.raftQ[1..], rounds := WithoutRequest(rt.rounds, rt.raftQ[0].request))
  }

  function Refused(ps: seq<PendingRead>): seq<StoreTask> {
    seq(|ps|, k requires 0 <= k < |ps| => RejectRead(ps[k].request))
  }

  /** The Raft loop may run this action now, given its queue and whether it is blocked. */
  ghost predicate Allowed(rt: Rt, n: Node, a: Action) {
    && !rt.stopped
    && (rt.blocked.Some? ==> a.DoReceive?)
    && (rt.raftQ == [] ==> !a.DoPropose? && !a.DoAdvance? && !a.DoTakeSnapshot? && !a.DoReadIndex?)
    && match a
       case DoTick(_) => true
       case DoReceive(m, _, restored) =>
         if rt.blocked.Some? then m == rt.blocked.value && rt.restoreDone && restored
         else m.InstallSnapshot? ==> !Installs(n, m, restored)
       case DoPropose(data) => rt.raftQ[0].ProposeTask? && data == Some(rt.raftQ[0].cmd)
       case DoAdvance(index) => rt.raftQ[0] == Ack(index) && InOrder(rt, n, index)
       case DoTakeSnapshot(upTo, state) =>
         rt.raftQ[0].Captured? && upTo == rt.raftQ[0].index && state == Some(rt.raftQ[0].state)
       case DoReadIndex => rt.raftQ[0].ReadTask?
       case DoFinishReadIndex(read) => RaftNode.ReadIndexReady(n, read) && read in TokensOf(rt.rounds)
  }

  /** What the loop does besides the action itself; `n` is the core before it. */
  function AfterAct(rt: Rt, n: Node, a: Action): Rt
    requires n.Valid()
  {
    match a
    case DoTick(_) => rt
    case DoReceive(_, _, _) => rt.(blocked := None, restoreDone := false)
    case DoPropose(data) =>
      if rt.raftQ == [] || !rt.raftQ[0].ProposeTask? then rt
      else rt.(raftQ := rt.raftQ[1..],
               storeQ := if n.role.Leader? then rt.storeQ else rt.storeQ + [RejectWrite(rt.raftQ[0].cmd.request)])
    case DoAdvance(index) =>
      if rt.raftQ == [] then rt
      else rt.(raftQ := rt.raftQ[1..], inFlight := None, stopped := rt.stopped || Advance(n, index).applied != index)
    case DoTakeSnapshot(_, _) =>
      if rt.raftQ == [] then rt else rt.(raftQ := rt.raftQ[1..], capturing := false)
    case DoReadIndex =>
      if rt.raftQ == [] || !rt.raftQ[0].ReadTask? then rt
      else
        var request := rt.raftQ[0].request;
        var token := ReadIndex(n).token;
        if token.None? then rt.(raftQ := rt.raftQ[1..], storeQ := rt.storeQ + [RejectRead(request)])
        else rt.(raftQ := rt.raftQ[1..], rounds := rt.rounds + [PendingRead(request, token.value)])
    case DoFinishReadIndex(read) =>
      rt.(rounds := Without(rt.rounds, read), storeQ := rt.storeQ + Served(rt.rounds, read, n.applied))
  }

  /** Hands the snapshot in `m` to the store loop and waits for it. */
  function BeginRestore(rt: Rt, m: Message): Rt
    requires m.InstallSnapshot?
  {
    rt.(blocked := Some(m), restoreDone := false, storeQ := rt.storeQ + [RestoreTask(m.snapIndex, m.snapData)])
  }

  /** A node that no longer leads refuses all its reads. */
  function DropReads(rt: Rt): Rt {
    rt.(rounds := [], storeQ := rt.storeQ + Refused(rt.rounds))
  }

  /** What looking through the pending reads finds. */
  datatype Polled = Waiting | Dropped | Finished(read: ReadToken)

  function AfterPoll(rt: Rt, n: Node, polled: Polled): Rt
    requires n.Valid()
  {
    match polled
    case Waiting => rt
    case Dropped => DropReads(rt)
    case Finished(read) => AfterAct(rt, n, DoFinishReadIndex(read))
  }

  /** What follows a callback of the Raft loop that left the core in state `n`. */
  function AfterActivity(rt: Rt, n: Node, polled: Polled, captures: bool): Rt
    requires n.Valid()
  {
    var p := AfterPoll(Dispatch(rt, n), n, polled);
    if captures then Capture(p) else p
  }

  // ---------- the store loop ----------

  datatype Turn = Turn(rt: Rt, answers: seq<(nat, Reply)>)

  /** Applies a committed entry, or finds that it cannot; a stopping process applies nothing. */
  function ApplyCommitted(id: Id, rt: Rt, e: Entry): Turn {
    if rt.stopped then Turn(rt, [])
    else if e.index <= rt.storeApplied then Turn(rt.(raftQ := rt.raftQ + [Ack(e.index)]), [])
    else if e.index != rt.storeApplied + 1 then Turn(rt.(stopped := true), [])
    else if e.data.None? then
      Turn(rt.(storeApplied := e.index, raftQ := rt.raftQ + [Ack(e.index)]), [])
    else
      var c := e.data.value;
      var done := ApplyCommand(rt.store, c);
      if done.None? then Turn(rt.(stopped := true), [])
      else
        var mine := c.origin == id && c.request in rt.writes;
        Turn(rt.(store := done.value.store, storeApplied := e.index, raftQ := rt.raftQ + [Ack(e.index)],
                 writes := if mine then rt.writes - {c.request} else rt.writes),
             if mine then [(c.request, Done(e.index, done.value.affected))] else [])
  }

  /** One callback of the store loop. */
  function ServeTask(id: Id, p: Rt, t: StoreTask): Turn {
    match t
    case ApplyTask(e) => ApplyCommitted(id, p, e)
    case CaptureTask => Turn(p.(raftQ := p.raftQ + [Captured(p.storeApplied, p.store)]), [])
    case RestoreTask(index, state) =>
      if state.None? then Turn(p, [])
      else Turn(p.(store := state.value, storeApplied := index, restoreDone := true), [])
    case RejectWrite(request) =>
      if request !in p.writes then Turn(p, []) else Turn(p.(writes := p.writes - {request}), [(request, NotLeader)])
    case FailWrite(request) =>
      if request !in p.writes then Turn(p, []) else Turn(p.(writes := p.writes - {request}), [(request, TryAgain)])
    case RejectRead(request) =>
      if request !in p.gets then Turn(p, []) else Turn(p.(gets := p.gets - {request}), [(request, NotLeader)])
    case ServeRead(request, _) =>
      if request !in p.gets then Turn(p, [])
      else
        var key := p.gets[request];
        Turn(p.(gets := p.gets - {request}),
             [(request, Value(if key in p.store then Some(p.store[key]) else None))])
  }

  /** Runs the callback at the head of the store loop's queue. */
  function ServeHead(id: Id, rt: Rt): Turn
    requires rt.storeQ != []
  {
    ServeTask(id, rt.(storeQ := rt.storeQ[1..]), rt.storeQ[0])
  }

  // ---------- clients ----------

  function BeginWrite(rt: Rt, c: Command): Rt {
    rt.(writes := rt.writes + {c.request}, raftQ := rt.raftQ + [ProposeTask(c)])
  }

  function BeginRead(rt: Rt, request: nat, key: string): Rt {
    rt.(gets := rt.gets[request := key], raftQ := rt.raftQ + [ReadTask(request)])
  }

  function ExpireWrite(rt: Rt, request: nat): Turn {
    if request !in rt.writes then Turn(rt, []) else Turn(rt.(writes := rt.writes - {request}), [(request, TryAgain)])
  }

  function ExpireRead(rt: Rt, request: nat): Turn {
    if request !in rt.gets then Turn(rt, [])
    else Turn(rt.(gets := rt.gets - {request}, raftQ := rt.raftQ + [CancelRead(request)]), [(request, TryAgain)])
  }
}
