/** Where a served read comes from: the client's request, the call that got a token for it, the
    step that opened the token's round, and the step that found the round ready.  In every run all
    four exist for every read that the store loop is asked to serve, in one lifetime of the process.
 */
module ReadOrigins {
  import opened Proto
  import opened RaftNode
  import opened Replay
  import opened Cluster
  import opened Runtime
  import opened System
  import opened Reads

  // ---------- the four steps ----------

  /** Step `g` is the client's request. */
  ghost predicate AskedAt(steps: seq<SysStep>, i: Id, r: nat, key: string, g: nat, l: nat) {
    g < l <= |steps| && steps[g] == Get(i, r, key)
  }

  /** Step `j` opens a round afresh and gets its token. */
  ghost predicate Opens(ss: seq<Sys>, steps: seq<SysStep>, i: Id, token: ReadToken, j: nat)
    requires |ss| == |steps| + 1
  {
    && j < |steps| && steps[j] == RunRaft(i, DoReadIndex) && Up(ss[j].cluster, i)
    && NodeAt(ss[j].cluster, i).role.Leader? && !NodeAt(ss[j].cluster, i).readPending
    && ReadIndex(NodeAt(ss[j].cluster, i)).token == Some(token)
  }

  /** The process of `i` neither crashes nor starts in steps `j` to `l`. */
  ghost predicate LivesOn(steps: seq<SysStep>, i: Id, j: nat, l: nat) {
    forall x {:trigger steps[x]} :: j <= x < l && x < |steps| && steps[x].id == i ==>
        !steps[x].Crash? && !steps[x].Boot?
  }

  ghost predicate OpenSince(ss: seq<Sys>, steps: seq<SysStep>, i: Id, token: ReadToken, j: nat, l: nat)
    requires |ss| == |steps| + 1
  {
    j < l <= |steps| && Opens(ss, steps, i, token, j) && LivesOn(steps, i, j, l)
  }

  /** Step `c` takes request `r` from the queue and gets the token of the round opened at `j`: its
      own round if none was pending, otherwise an earlier one. */
  ghost predicate Calls(ss: seq<Sys>, steps: seq<SysStep>, i: Id, r: nat, token: ReadToken, j: nat, c: nat)
    requires |ss| == |steps| + 1
  {
    && c < |steps| && steps[c] == RunRaft(i, DoReadIndex) && Up(ss[c].cluster, i)
    && i in ss[c].rts && ss[c].rts[i].raftQ != [] && ss[c].rts[i].raftQ[0] == ReadTask(r)
    && ReadIndex(NodeAt(ss[c].cluster, i)).token == Some(token)
    && j <= c && (j == c <==> !NodeAt(ss[c].cluster, i).readPending)
  }

  /** Step `f` finds the round ready and posts task `t`, with the applied index of that moment. */
  ghost predicate Readied(ss: seq<Sys>, steps: seq<SysStep>, i: Id, t: StoreTask, token: ReadToken, f: nat)
    requires |ss| == |steps| + 1
  {
    && t.ServeRead? && f < |steps| && steps[f] == RunRaft(i, DoFinishReadIndex(token)) && Up(ss[f].cluster, i)
    && ReadIndexReady(NodeAt(ss[f].cluster, i), token) && t.fence == NodeAt(ss[f].cluster, i).applied
  }

  ghost predicate ServedFrom(ss: seq<Sys>, steps: seq<SysStep>, i: Id, t: StoreTask, token: ReadToken, j: nat, c: nat,
                             f: nat)
    requires |ss| == |steps| + 1
  {
    Readied(ss, steps, i, t, token, f) && c < f && OpenSince(ss, steps, i, token, j, f)
        && Calls(ss, steps, i, t.request, token, j, c)
  }

  // ---------- everything is tracked ----------

  ghost predicate PendingTracked(ss: seq<Sys>, steps: seq<SysStep>, i: Id, token: ReadToken, l: nat)
    requires |ss| == |steps| + 1
  {
    exists j: nat {:trigger OpenSince(ss, steps, i, token, j, l)} :: OpenSince(ss, steps, i, token, j, l)
  }

  ghost predicate RoundTracked(ss: seq<Sys>, steps: seq<SysStep>, i: Id, p: PendingRead, l: nat)
    requires |ss| == |steps| + 1
  {
    exists j: nat, c: nat {:trigger Calls(ss, steps, i, p.request, p.token, j, c)} ::
      c < l && OpenSince(ss, steps, i, p.token, j, l) && Calls(ss, steps, i, p.request, p.token, j, c)
  }

  ghost predicate TaskTracked(ss: seq<Sys>, steps: seq<SysStep>, i: Id, t: StoreTask, l: nat)
    requires |ss| == |steps| + 1
  {
    t.ServeRead? ==>
      exists token, j: nat, c: nat, f: nat {:trigger ServedFrom(ss, steps, i, t, token, j, c, f)} ::
        f < l && ServedFrom(ss, steps, i, t, token, j, c, f)
  }

  ghost predicate CallTracked(steps: seq<SysStep>, i: Id, t: RaftTask, l: nat) {
    t.ReadTask? ==>
      exists key, g: nat {:trigger AskedAt(steps, i, t.request, key, g, l)} :: AskedAt(steps, i, t.request, key, g, l)
  }

  ghost predicate GetTracked(steps: seq<SysStep>, i: Id, r: nat, key: string, l: nat) {
    exists g: nat {:trigger AskedAt(steps, i, r, key, g, l)} :: AskedAt(steps, i, r, key, g, l)
  }

  ghost predicate QueuesTracked(ss: seq<Sys>, steps: seq<SysStep>, i: Id, rt: Rt, l: nat)
    requires |ss| == |steps| + 1
  {
    && (forall t {:trigger TaskTracked(ss, steps, i, t, l)} :: t in rt.storeQ ==> TaskTracked(ss, steps, i, t, l))
    && (forall t {:trigger CallTracked(steps, i, t, l)} :: t in rt.raftQ ==> CallTracked(steps, i, t, l))
    && (forall r: nat {:trigger rt.gets[r]} :: r in rt.gets ==> GetTracked(steps, i, r, rt.gets[r], l))
  }

  ghost predicate RoundsTracked(ss: seq<Sys>, steps: seq<SysStep>, i: Id, n: Node, rounds: seq<PendingRead>, l: nat)
    requires |ss| == |steps| + 1
  {
    && (n.readPending ==> PendingTracked(ss, steps, i, ReadToken(n.readContext, n.readIndex), l))
    && (forall p {:trigger RoundTracked(ss, steps, i, p, l)} :: p in rounds ==> RoundTracked(ss, steps, i, p, l))
  }

  ghost predicate Tracked(ss: seq<Sys>, steps: seq<SysStep>, i: Id, l: nat)
    requires |ss| == |steps| + 1 && l < |ss|
  {
    && (i in ss[l].rts ==> QueuesTracked(ss, steps, i, ss[l].rts[i], l))
    && (Up(ss[l].cluster, i) ==>
          i in ss[l].rts && RoundsTracked(ss, steps, i, NodeAt(ss[l].cluster, i), ss[l].rts[i].rounds, l))
  }

  // ---------- one step later ----------

  lemma StillOpen(ss: seq<Sys>, steps: seq<SysStep>, i: Id, token: ReadToken, j: nat, l: nat)
    requires |ss| == |steps| + 1 && l < |steps| && OpenSince(ss, steps, i, token, j, l)
    requires steps[l].id == i ==> !steps[l].Crash? && !steps[l].Boot?
    ensures OpenSince(ss, steps, i, token, j, l + 1)
  {
  }

  lemma RoundLater(ss: seq<Sys>, steps: seq<SysStep>, i: Id, p: PendingRead, l: nat)
    requires |ss| == |steps| + 1 && l < |steps| && RoundTracked(ss, steps, i, p, l)
    requires steps[l].id == i ==> !steps[l].Crash? && !steps[l].Boot?
    ensures RoundTracked(ss, steps, i, p, l + 1)
  {
    var j: nat, c: nat :| c < l && OpenSince(ss, steps, i, p.token, j, l)
        && Calls(ss, steps, i, p.request, p.token, j, c);
    StillOpen(ss, steps, i, p.token, j, l);
  }

  lemma TaskLater(ss: seq<Sys>, steps: seq<SysStep>, i: Id, t: StoreTask, l: nat)
    requires |ss| == |steps| + 1 && TaskTracked(ss, steps, i, t, l)
    ensures TaskTracked(ss, steps, i, t, l + 1)
  {
    if t.ServeRead? {
      var token, j: nat, c: nat, f: nat :| f < l && ServedFrom(ss, steps, i, t, token, j, c, f);
      assert f < l + 1;
    }
  }

  lemma CallLater(steps: seq<SysStep>, i: Id, t: RaftTask, l: nat)
    requires l < |steps| && CallTracked(steps, i, t, l)
    ensures CallTracked(steps, i, t, l + 1)
  {
    if t.ReadTask? {
      var key, g: nat :| AskedAt(steps, i, t.request, key, g, l);
      assert AskedAt(steps, i, t.request, key, g, l + 1);
    }
  }

  lemma GetLater(steps: seq<SysStep>, i: Id, r: nat, key: string, l: nat)
    requires l < |steps| && GetTracked(steps, i, r, key, l)
    ensures GetTracked(steps, i, r, key, l + 1)
  {
    var g: nat :| AskedAt(steps, i, r, key, g, l);
    assert AskedAt(steps, i, r, key, g, l + 1);
  }

  /** Queues whose tasks and reads are old ones or tracked anew. */
  lemma QueuesLater(ss: seq<Sys>, steps: seq<SysStep>, i: Id, rt: Rt, rt': Rt, l: nat)
    requires |ss| == |steps| + 1 && l < |steps| && QueuesTracked(ss, steps, i, rt, l)
    requires forall t :: t in rt'.storeQ ==> t in rt.storeQ || TaskTracked(ss, steps, i, t, l + 1)
    requires forall t :: t in rt'.raftQ ==> t in rt.raftQ || CallTracked(steps, i, t, l + 1)
    requires forall r :: r in rt'.gets ==>
              (r in rt.gets && rt'.gets[r] == rt.gets[r]) || GetTracked(steps, i, r, rt'.gets[r], l + 1)
    ensures QueuesTracked(ss, steps, i, rt', l + 1)
  {
    forall t | t in rt'.storeQ ensures TaskTracked(ss, steps, i, t, l + 1) {
      if t in rt.storeQ { assert TaskTracked(ss, steps, i, t, l); TaskLater(ss, steps, i, t, l); }
    }
    forall t | t in rt'.raftQ ensures CallTracked(steps, i, t, l + 1) {
      if t in rt.raftQ { assert CallTracked(steps, i, t, l); CallLater(steps, i, t, l); }
    }
    forall r: nat {:trigger rt'.gets[r]} | r in rt'.gets ensures GetTracked(steps, i, r, rt'.gets[r], l + 1) {
      if r in rt.gets && rt'.gets[r] == rt.gets[r] { GetLater(steps, i, r, rt.gets[r], l); }
    }
  }

  /** Rounds that are old ones or tracked anew, of a process that lives on. */
  lemma RoundsLater(ss: seq<Sys>, steps: seq<SysStep>, i: Id, n: Node, n': Node, rounds: seq<PendingRead>,
                    rounds': seq<PendingRead>, l: nat)
    requires |ss| == |steps| + 1 && l < |steps| && RoundsTracked(ss, steps, i, n, rounds, l)
    requires steps[l].id == i ==> !steps[l].Crash? && !steps[l].Boot?
    requires n'.readPending ==>
              SameRound(n, n') || PendingTracked(ss, steps, i, ReadToken(n'.readContext, n'.readIndex), l + 1)
    requires forall p :: p in rounds' ==> p in rounds || RoundTracked(ss, steps, i, p, l + 1)
    ensures RoundsTracked(ss, steps, i, n', rounds', l + 1)
  {
    if n'.readPending && SameRound(n, n') {
      var token := ReadToken(n.readContext, n.readIndex);
      var j: nat :| OpenSince(ss, steps, i, token, j, l);
      StillOpen(ss, steps, i, token, j, l);
    }
    forall p | p in rounds' ensures RoundTracked(ss, steps, i, p, l + 1) {
      if p in rounds { assert RoundTracked(ss, steps, i, p, l); RoundLater(ss, steps, i, p, l); }
    }
  }

  // ---------- who is in the lists ----------

  lemma {:induction false} WithoutIn(ps: seq<PendingRead>, token: ReadToken, p: PendingRead)
    requires p in Without(ps, token)
    ensures p in ps
    decreases |ps|
  {
    if p in Without(ps[..|ps| - 1], token) {
      WithoutIn(ps[..|ps| - 1], token, p);
    }
  }

  lemma {:induction false} WithoutRequestIn(ps: seq<PendingRead>, request: nat, p: PendingRead)
    requires p in WithoutRequest(ps, request)
    ensures p in ps
    decreases |ps|
  {
    if p in WithoutRequest(ps[..|ps| - 1], request) {
      WithoutRequestIn(ps[..|ps| - 1], request, p);
    }
  }

  lemma {:induction false} ServedIn(ps: seq<PendingRead>, token: ReadToken, fence: nat, t: StoreTask)
    requires t in Served(ps, token, fence)
    ensures t.ServeRead? && t.fence == fence && PendingRead(t.request, token) in ps
    decreases |ps|
  {
    if t in Served(ps[..|ps| - 1], token, fence) {
      ServedIn(ps[..|ps| - 1], token, fence, t);
    } else {
      assert ps[|ps| - 1] in ps;
    }
  }

  // ---------- steps of the process itself ----------

  /** The node of `i` does not move, or moves without touching its round. */
  ghost predicate RoundStays(s: Sys, i: Id, s': Sys) {
    Up(s'.cluster, i) ==>
      Up(s.cluster, i) && (NodeAt(s'.cluster, i).readPending ==> SameRound(NodeAt(s.cluster, i), NodeAt(s'.cluster, i)))
  }

  /** A step that posts no read to serve, opens no round and takes no request. */
  lemma PlainTracked(ss: seq<Sys>, steps: seq<SysStep>, i: Id, l: nat)
    requires |ss| == |steps| + 1 && l < |steps| && Tracked(ss, steps, i, l)
    requires steps[l].id == i ==> !steps[l].Crash? && !steps[l].Boot?
    requires i in ss[l].rts && i in ss[l + 1].rts && RoundStays(ss[l], i, ss[l + 1])
    requires var rt, rt' := ss[l].rts[i], ss[l + 1].rts[i];
             && (forall t :: t in rt'.storeQ ==> t in rt.storeQ || !t.ServeRead?)
             && (forall t :: t in rt'.raftQ ==> t in rt.raftQ || !t.ReadTask?)
             && (forall r :: r in rt'.gets ==> r in rt.gets && rt'.gets[r] == rt.gets[r])
             && (forall p :: p in rt'.rounds ==> p in rt.rounds)
    ensures Tracked(ss, steps, i, l + 1)
  {
    QueuesLater(ss, steps, i, ss[l].rts[i], ss[l + 1].rts[i], l);
    if Up(ss[l + 1].cluster, i) {
      RoundsLater(ss, steps, i, NodeAt(ss[l].cluster, i), NodeAt(ss[l + 1].cluster, i),
                  ss[l].rts[i].rounds, ss[l + 1].rts[i].rounds, l);
    }
  }

  lemma QueueStepTracked(ss: seq<Sys>, steps: seq<SysStep>, i: Id, l: nat)
    requires |ss| == |steps| + 1 && l < |steps| && Tracked(ss, steps, i, l) && NextSys(ss[l], steps[l], ss[l + 1])
    requires steps[l].id == i
    requires steps[l].DropAck? || steps[l].RejectReads? || steps[l].DispatchNext? || steps[l].CaptureNow?
             || steps[l].StartRestore?
    ensures Tracked(ss, steps, i, l + 1)
  {
    PlainTracked(ss, steps, i, l);
  }

  lemma StoreStepTracked(ss: seq<Sys>, steps: seq<SysStep>, i: Id, l: nat)
    requires |ss| == |steps| + 1 && l < |steps| && Tracked(ss, steps, i, l) && NextSys(ss[l], steps[l], ss[l + 1])
    requires steps[l].id == i && (steps[l].RunStore? || steps[l].Expire? || steps[l].Write?)
    ensures Tracked(ss, steps, i, l + 1)
  {
    var rt := ss[l].rts[i];
    if steps[l].RunStore? { ServedShape(i, rt); }
    PlainTracked(ss, steps, i, l);
  }

  function Final(q: seq<RaftTask>): RaftTask
    requires q != []
  {
    q[|q| - 1]
  }

  /** Running a task takes no reads on: the queue of the Raft loop gets an acknowledgment or a
      capture at most, and a pending read only goes away. */
  ghost predicate OnlyServes(rt: Rt, rt': Rt) {
    && rt'.rounds == rt.rounds && rt'.storeQ == rt.storeQ
    && (rt'.raftQ == rt.raftQ || (rt'.raftQ != [] && rt'.raftQ == rt.raftQ + [Final(rt'.raftQ)]
                                  && !Final(rt'.raftQ).ReadTask?))
    && (forall r :: r in rt'.gets ==> r in rt.gets && rt'.gets[r] == rt.gets[r])
  }

  lemma ApplyOnlyServes(i: Id, rt: Rt, e: Entry)
    ensures OnlyServes(rt, ApplyCommitted(i, rt, e).rt)
  {
  }

  lemma TaskOnlyServes(i: Id, rt: Rt, t: StoreTask)
    ensures OnlyServes(rt, ServeTask(i, rt, t).rt)
  {
    match t
    case ApplyTask(e) => ApplyOnlyServes(i, rt, e);
    case CaptureTask =>
    case RestoreTask(_, _) =>
    case RejectWrite(_) =>
    case FailWrite(_) =>
    case RejectRead(_) =>
    case ServeRead(_, _) =>
  }

  lemma ServedShape(i: Id, rt: Rt)
    requires rt.storeQ != []
    ensures var rt' := ServeHead(i, rt).rt;
            && rt'.storeQ == rt.storeQ[1..] && rt'.rounds == rt.rounds
            && (forall t :: t in rt'.raftQ ==> t in rt.raftQ || !t.ReadTask?)
            && (forall r :: r in rt'.gets ==> r in rt.gets && rt'.gets[r] == rt.gets[r])
  {
    TaskOnlyServes(i, rt.(storeQ := rt.storeQ[1..]), rt.storeQ[0]);
  }

  lemma GetTrackedAnew(ss: seq<Sys>, steps: seq<SysStep>, i: Id, l: nat)
    requires |ss| == |steps| + 1 && l < |steps| && Tracked(ss, steps, i, l) && NextSys(ss[l], steps[l], ss[l + 1])
    requires steps[l].id == i && steps[l].Get?
    ensures Tracked(ss, steps, i, l + 1)
  {
    var r, key := steps[l].request, steps[l].key;
    assert AskedAt(steps, i, r, key, l, l + 1);
    assert CallTracked(steps, i, ReadTask(r), l + 1) && GetTracked(steps, i, r, key, l + 1);
    QueuesLater(ss, steps, i, ss[l].rts[i], ss[l + 1].rts[i], l);
    if Up(ss[l].cluster, i) {
      var n := NodeAt(ss[l].cluster, i);
      RoundsLater(ss, steps, i, n, n, ss[l].rts[i].rounds, ss[l].rts[i].rounds, l);
    }
  }

  lemma CancelTracked(ss: seq<Sys>, steps: seq<SysStep>, i: Id, l: nat)
    requires |ss| == |steps| + 1 && l < |steps| && Tracked(ss, steps, i, l) && NextSys(ss[l], steps[l], ss[l + 1])
    requires steps[l].id == i && steps[l].CancelHead?
    ensures Tracked(ss, steps, i, l + 1)
  {
    var rt := ss[l].rts[i];
    forall p | p in Cancelled(rt).rounds ensures p in rt.rounds { WithoutRequestIn(rt.rounds, rt.raftQ[0].request, p); }
    PlainTracked(ss, steps, i, l);
  }

  /** Taking a request moves it from the queue to the pending rounds, or refuses it. */
  lemma ReadShape(rt: Rt, n: Node)
    requires n.Valid() && rt.raftQ != [] && rt.raftQ[0].ReadTask?
    ensures var rt', token := AfterAct(rt, n, DoReadIndex), ReadIndex(n).token;
            && rt'.raftQ == rt.raftQ[1..] && rt'.gets == rt.gets
            && rt'.storeQ == rt.storeQ + (if token.Some? then [] else [RejectRead(rt.raftQ[0].request)])
            && rt'.rounds == rt.rounds + if token.Some? then [PendingRead(rt.raftQ[0].request, token.value)] else []
  {
  }

  /** Opening or joining a round. */
  lemma ReadTracked(ss: seq<Sys>, steps: seq<SysStep>, i: Id, l: nat)
    requires |ss| == |steps| + 1 && l < |steps| && Tracked(ss, steps, i, l) && NextSys(ss[l], steps[l], ss[l + 1])
    requires steps[l] == RunRaft(i, DoReadIndex)
    ensures Tracked(ss, steps, i, l + 1)
  {
    var n, rt, rt' := NodeAt(ss[l].cluster, i), ss[l].rts[i], ss[l + 1].rts[i];
    ReadShape(rt, n);
    QueuesLater(ss, steps, i, rt, rt', l);
    if ReadIndex(n).token.Some? {
      CallTrackedAnew(ss, steps, i, PendingRead(rt.raftQ[0].request, ReadIndex(n).token.value), l);
    }
    ReadRounds(ss, steps, i, n, rt.rounds, rt'.rounds, l);
  }

  lemma ReadRounds(ss: seq<Sys>, steps: seq<SysStep>, i: Id, n: Node, rounds: seq<PendingRead>,
                   rounds': seq<PendingRead>, l: nat)
    requires |ss| == |steps| + 1 && l < |steps| && RoundsTracked(ss, steps, i, n, rounds, l) && n.Valid()
    requires steps[l] == RunRaft(i, DoReadIndex)
    requires forall p :: p in rounds' ==> p in rounds || RoundTracked(ss, steps, i, p, l + 1)
    requires ReadIndex(n).token.Some? && !n.readPending ==>
              PendingTracked(ss, steps, i, ReadIndex(n).token.value, l + 1)
    ensures RoundsTracked(ss, steps, i, Act(n, DoReadIndex).node, rounds', l + 1)
  {
    ActKeepsPending(n, DoReadIndex);
    RoundsLater(ss, steps, i, n, Act(n, DoReadIndex).node, rounds, rounds', l);
  }

  lemma CallTrackedAnew(ss: seq<Sys>, steps: seq<SysStep>, i: Id, p: PendingRead, l: nat)
    requires |ss| == |steps| + 1 && l < |steps| && Tracked(ss, steps, i, l) && NextSys(ss[l], steps[l], ss[l + 1])
    requires steps[l] == RunRaft(i, DoReadIndex) && ReadIndex(NodeAt(ss[l].cluster, i)).token == Some(p.token)
    requires ss[l].rts[i].raftQ[0] == ReadTask(p.request)
    ensures RoundTracked(ss, steps, i, p, l + 1)
    ensures !NodeAt(ss[l].cluster, i).readPending ==> PendingTracked(ss, steps, i, p.token, l + 1)
  {
    var n := NodeAt(ss[l].cluster, i);
    if n.readPending {
      var j: nat :| OpenSince(ss, steps, i, p.token, j, l);
      StillOpen(ss, steps, i, p.token, j, l);
      assert Calls(ss, steps, i, p.request, p.token, j, l);
    } else {
      assert OpenSince(ss, steps, i, p.token, l, l + 1);
      assert Calls(ss, steps, i, p.request, p.token, l, l);
    }
  }

  /** Finding a round ready. */
  lemma FinishTracked(ss: seq<Sys>, steps: seq<SysStep>, i: Id, token: ReadToken, l: nat)
    requires |ss| == |steps| + 1 && l < |steps| && Tracked(ss, steps, i, l) && NextSys(ss[l], steps[l], ss[l + 1])
    requires steps[l] == RunRaft(i, DoFinishReadIndex(token))
    ensures Tracked(ss, steps, i, l + 1)
  {
    var n, rt, rt' := NodeAt(ss[l].cluster, i), ss[l].rts[i], ss[l + 1].rts[i];
    var more := Served(rt.rounds, token, n.applied);
    forall t | t in more ensures TaskTracked(ss, steps, i, t, l + 1) {
      ServedIn(rt.rounds, token, n.applied, t);
      ReadiedTracked(ss, steps, i, t, token, l);
    }
    forall p | p in rt'.rounds ensures p in rt.rounds { WithoutIn(rt.rounds, token, p); }
    QueuesLater(ss, steps, i, rt, rt', l);
    RoundsLater(ss, steps, i, n, NodeAt(ss[l + 1].cluster, i), rt.rounds, rt'.rounds, l);
  }

  lemma ReadiedTracked(ss: seq<Sys>, steps: seq<SysStep>, i: Id, t: StoreTask, token: ReadToken, l: nat)
    requires |ss| == |steps| + 1 && Readied(ss, steps, i, t, token, l)
    requires RoundTracked(ss, steps, i, PendingRead(t.request, token), l)
    ensures TaskTracked(ss, steps, i, t, l + 1)
  {
    var p := PendingRead(t.request, token);
    var j: nat, c: nat :| c < l && OpenSince(ss, steps, i, p.token, j, l)
        && Calls(ss, steps, i, p.request, p.token, j, c);
    assert ServedFrom(ss, steps, i, t, token, j, c, l);
  }

  lemma RaftStepTracked(ss: seq<Sys>, steps: seq<SysStep>, i: Id, a: Action, l: nat)
    requires |ss| == |steps| + 1 && l < |steps| && Tracked(ss, steps, i, l) && NextSys(ss[l], steps[l], ss[l + 1])
    requires steps[l] == RunRaft(i, a) && !a.DoReadIndex? && !a.DoFinishReadIndex?
    ensures Tracked(ss, steps, i, l + 1)
  {
    ActKeepsPending(NodeAt(ss[l].cluster, i), a);
    PlainTracked(ss, steps, i, l);
  }

  /** Crashing, stopping and starting. */
  lemma EndsTracked(ss: seq<Sys>, steps: seq<SysStep>, i: Id, l: nat)
    requires |ss| == |steps| + 1 && l < |steps| && Tracked(ss, steps, i, l) && NextSys(ss[l], steps[l], ss[l + 1])
    requires steps[l].id == i && (steps[l].Crash? || steps[l].Boot?)
    ensures Tracked(ss, steps, i, l + 1)
  {
    if steps[l].Crash? && i in ss[l + 1].rts {
      QueuesLater(ss, steps, i, ss[l].rts[i], ss[l + 1].rts[i], l);
    }
  }

  lemma OthersTracked(ss: seq<Sys>, steps: seq<SysStep>, i: Id, l: nat)
    requires |ss| == |steps| + 1 && l < |steps| && Tracked(ss, steps, i, l) && NextSys(ss[l], steps[l], ss[l + 1])
    requires steps[l].id != i
    ensures Tracked(ss, steps, i, l + 1)
  {
    assert i in ss[l + 1].rts <==> i in ss[l].rts;
    assert Up(ss[l + 1].cluster, i) ==> Up(ss[l].cluster, i);
    if i in ss[l].rts { PlainTracked(ss, steps, i, l); }
  }

  lemma StepTracked(ss: seq<Sys>, steps: seq<SysStep>, i: Id, l: nat)
    requires |ss| == |steps| + 1 && l < |steps| && Tracked(ss, steps, i, l) && NextSys(ss[l], steps[l], ss[l + 1])
    ensures Tracked(ss, steps, i, l + 1)
  {
    if steps[l].id != i {
      OthersTracked(ss, steps, i, l);
    } else {
      match steps[l]
      case RunRaft(_, a) =>
        if a.DoReadIndex? {
          ReadTracked(ss, steps, i, l);
        } else if a.DoFinishReadIndex? {
          FinishTracked(ss, steps, i, a.read, l);
        } else {
          RaftStepTracked(ss, steps, i, a, l);
        }
      case DropAck(_) => QueueStepTracked(ss, steps, i, l);
      case CancelHead(_) => CancelTracked(ss, steps, i, l);
      case RejectReads(_) => QueueStepTracked(ss, steps, i, l);
      case DispatchNext(_) => QueueStepTracked(ss, steps, i, l);
      case CaptureNow(_) => QueueStepTracked(ss, steps, i, l);
      case StartRestore(_, _) => QueueStepTracked(ss, steps, i, l);
      case RunStore(_) => StoreStepTracked(ss, steps, i, l);
      case Write(_, _) => StoreStepTracked(ss, steps, i, l);
      case Get(_, _, _) => GetTrackedAnew(ss, steps, i, l);
      case Expire(_, _) => StoreStepTracked(ss, steps, i, l);
      case Crash(_, _, _) => EndsTracked(ss, steps, i, l);
      case Boot(_) => EndsTracked(ss, steps, i, l);
    }
  }

  /** At every moment of every run, whatever a process holds of reads comes from the steps above. */
  lemma {:induction false} AllTracked(ss: seq<Sys>, steps: seq<SysStep>, i: Id, l: nat)
    requires SysRun(ss, steps) && l < |ss|
    ensures Tracked(ss, steps, i, l)
    decreases l
  {
    if l == 0 {
      assert ss[0].rts[i] == Started(map[], 0) && ss[0].cluster.slots[i] == Slot([], Some(Fresh(i)));
    } else {
      AllTracked(ss, steps, i, l - 1);
      assert StepAt(ss, steps, l - 1);
      StepTracked(ss, steps, i, l - 1);
    }
  }

  // ---------- a request is made once ----------

  lemma {:induction false} UsedStays(ss: seq<Sys>, steps: seq<SysStep>, j: nat, k: nat, key: (nat, nat))
    requires SysRun(ss, steps) && j <= k < |ss| && key in ss[j].past.used
    ensures key in ss[k].past.used
    decreases k
  {
    if j < k {
      UsedStays(ss, steps, j, k - 1, key);
      assert StepAt(ss, steps, k - 1);
    }
  }

  lemma AskedOnce(ss: seq<Sys>, steps: seq<SysStep>, i: Id, r: nat, key: string, key': string, g: nat, g': nat)
    requires SysRun(ss, steps) && g < |steps| && g' < |steps|
    requires steps[g] == Get(i, r, key) && steps[g'] == Get(i, r, key')
    ensures g == g' && key == key'
  {
    assert StepAt(ss, steps, g) && StepAt(ss, steps, g');
    if g < g' {
      UsedStays(ss, steps, g + 1, g', (i as nat, r));
    } else if g' < g {
      UsedStays(ss, steps, g' + 1, g, (i as nat, r));
    }
  }
}
