/** Client replies over every run, also those of a stopping process: each request is answered at
    most once, a write is reported done only after its own command was applied at a committed
    index, and NOT_LEADER only if the command never entered any log.  Request ids are taken to be
    fresh, also across restarts.
 */
module Replies {
  import opened Proto
  import opened RaftNode
  import opened Replay
  import opened Cluster
  import opened Kv
  import opened Runtime
  import opened Effects
  import opened System
  import opened Circulation
  import opened Safety
  import opened ApplyOnce
  import opened EndToEnd

  type Key = (nat, nat)

  function KeyOf(c: Command): Key {
    (c.origin, c.request)
  }

  function AnswerKey(a: Answer): Key {
    (a.node, a.request)
  }

  // ---------- the invariant ----------

  ghost predicate Unanswered(p: Past, key: Key) {
    forall k {:trigger p.answers[k]} :: 0 <= k < |p.answers| ==> AnswerKey(p.answers[k]) != key
  }

  ghost predicate TaskOk(p: Past, i: Id, t: RaftTask) {
    t.ProposeTask? ==>
      var key: Key := (i as nat, t.cmd.request);
      && t.cmd.origin == i && key in p.issued && p.issued[key] == t.cmd
      && key !in p.proposed && key !in p.refused
  }

  ghost predicate Apart(q: seq<RaftTask>, j: int, k: int)
    requires 0 <= j < |q| && 0 <= k < |q|
  {
    q[j].ProposeTask? && q[k].ProposeTask? ==> q[j].cmd.request != q[k].cmd.request
  }

  ghost predicate QueueOk(p: Past, i: Id, q: seq<RaftTask>) {
    && (forall k {:trigger TaskOk(p, i, q[k])} :: 0 <= k < |q| ==> TaskOk(p, i, q[k]))
    && (forall j, k {:trigger Apart(q, j, k)} :: 0 <= j < k < |q| ==> Apart(q, j, k))
  }

  ghost predicate RefusalOk(p: Past, i: Id, t: StoreTask) {
    t.RejectWrite? ==> (i as nat, t.request) in p.refused
  }

  ghost predicate WriteOk(p: Past, i: Id, r: nat) {
    (i as nat, r) in p.issued && Unanswered(p, (i as nat, r))
  }

  ghost predicate GetOk(p: Past, i: Id, r: nat) {
    (i as nat, r) in p.used && (i as nat, r) !in p.issued && Unanswered(p, (i as nat, r))
  }

  ghost predicate TablesOk(p: Past, i: Id, rt: Rt) {
    && QueueOk(p, i, rt.raftQ)
    && (forall k {:trigger RefusalOk(p, i, rt.storeQ[k])} :: 0 <= k < |rt.storeQ| ==> RefusalOk(p, i, rt.storeQ[k]))
    && (forall r: nat {:trigger WriteOk(p, i, r)} :: r in rt.writes ==> WriteOk(p, i, r))
    && (forall r: nat {:trigger GetOk(p, i, r)} :: r in rt.gets ==> GetOk(p, i, r))
  }

  ghost predicate AnswerOk(p: Past, a: Answer) {
    var key := AnswerKey(a);
    && key in p.used
    && (a.reply.NotLeader? && key in p.issued ==> key in p.refused)
  }

  ghost predicate Distinct(p: Past, j: int, k: int)
    requires 0 <= j < |p.answers| && 0 <= k < |p.answers|
  {
    AnswerKey(p.answers[j]) != AnswerKey(p.answers[k])
  }

  ghost predicate CreatedOk(p: Past, e: Entry) {
    e.data.Some? ==>
        KeyOf(e.data.value) in p.proposed && KeyOf(e.data.value) in p.issued
            && p.issued[KeyOf(e.data.value)] == e.data.value
  }

  ghost predicate PastOk(p: Past) {
    && p.issued.Keys <= p.used && p.refused <= p.issued.Keys && p.proposed <= p.issued.Keys && p.proposed !! p.refused
    && (forall e {:trigger CreatedOk(p, e)} :: e in p.created ==> CreatedOk(p, e))
    && (forall k {:trigger AnswerOk(p, p.answers[k])} :: 0 <= k < |p.answers| ==> AnswerOk(p, p.answers[k]))
    && (forall j, k {:trigger Distinct(p, j, k)} :: 0 <= j < k < |p.answers| ==> Distinct(p, j, k))
  }

  ghost predicate ClientsOk(s: Sys) {
    && PastOk(s.past)
    && (forall i: Id {:trigger TablesOk(s.past, i, s.rts[i])} :: i in s.rts ==> TablesOk(s.past, i, s.rts[i]))
  }

  // ---------- how the record may grow ----------

  /** Nothing recorded is changed; new requests are new; `i` alone answers or proposes. */
  ghost predicate PastGrows(p: Past, q: Past, i: Id) {
    && p.used <= q.used && p.issued.Keys <= q.issued.Keys
    && (forall key {:trigger q.issued[key]} :: key in p.issued ==> q.issued[key] == p.issued[key])
    && (forall key {:trigger key in q.issued} :: key in q.issued && key !in p.issued ==> key.0 == i)
    && p.refused <= q.refused
    && (forall key {:trigger key in q.proposed} :: key in q.proposed && key !in p.proposed ==> key.0 == i)
    && (forall key {:trigger key in q.refused} :: key in q.refused && key !in p.refused ==> key.0 == i)
    && |p.answers| <= |q.answers| && q.answers[..|p.answers|] == p.answers
    && (forall k {:trigger q.answers[k]} :: |p.answers| <= k < |q.answers| ==> q.answers[k].node == i)
  }

  lemma OtherTables(p: Past, q: Past, i: Id, j: Id, rt: Rt)
    requires PastGrows(p, q, i) && i != j && TablesOk(p, j, rt)
    ensures TablesOk(q, j, rt)
  {
    forall k | 0 <= k < |rt.raftQ| ensures TaskOk(q, j, rt.raftQ[k]) { assert TaskOk(p, j, rt.raftQ[k]); }
    forall k | 0 <= k < |rt.storeQ| ensures RefusalOk(q, j, rt.storeQ[k]) { assert RefusalOk(p, j, rt.storeQ[k]); }
    forall r: nat | r in rt.writes ensures WriteOk(q, j, r) {
      assert WriteOk(p, j, r);
      StillUnanswered(p, q, i, (j as nat, r));
    }
    forall r: nat | r in rt.gets ensures GetOk(q, j, r) {
      assert GetOk(p, j, r);
      StillUnanswered(p, q, i, (j as nat, r));
    }
  }

  lemma StillUnanswered(p: Past, q: Past, i: Id, key: Key)
    requires PastGrows(p, q, i) && Unanswered(p, key) && key.0 != i
    ensures Unanswered(q, key)
  {
    forall k {:trigger q.answers[k]} | 0 <= k < |q.answers| ensures AnswerKey(q.answers[k]) != key {
      if k < |p.answers| { assert p.answers[k] == q.answers[..|p.answers|][k]; }
    }
  }

  lemma Assembled(s: Sys, i: Id, s': Sys)
    requires ClientsOk(s) && PastOk(s'.past) && PastGrows(s.past, s'.past, i)
    requires forall j: Id :: j != i && j in s'.rts ==> j in s.rts && s'.rts[j] == s.rts[j]
    requires i in s'.rts ==> TablesOk(s'.past, i, s'.rts[i])
    ensures ClientsOk(s')
  {
    forall j: Id | j in s'.rts ensures TablesOk(s'.past, j, s'.rts[j]) {
      if j != i {
        assert TablesOk(s.past, j, s.rts[j]);
        OtherTables(s.past, s'.past, i, j, s.rts[j]);
      }
    }
  }

  // ---------- answers ----------

  /** One more answer, to a request of `i` that had none. */
  lemma AnswerKeeps(p: Past, i: Id, a: Answer)
    requires PastOk(p) && a.node == i && Unanswered(p, AnswerKey(a)) && AnswerOk(p, a)
    ensures PastOk(p.(answers := p.answers + [a]))
    ensures PastGrows(p, p.(answers := p.answers + [a]), i)
  {
    var q := p.(answers := p.answers + [a]);
    forall e | e in q.created ensures CreatedOk(q, e) { assert CreatedOk(p, e); }
    forall k | 0 <= k < |q.answers| ensures AnswerOk(q, q.answers[k]) {
      if k < |p.answers| { assert AnswerOk(p, p.answers[k]); }
    }
    forall j, k | 0 <= j < k < |q.answers| ensures Distinct(q, j, k) {
      assert q.answers[j] == p.answers[j];
      if k < |p.answers| { assert Distinct(p, j, k); }
    }
  }

  /** Tables with answered requests removed stay fine. */
  lemma TablesAfterAnswer(p: Past, i: Id, rt: Rt, rt': Rt, a: Answer)
    requires TablesOk(p, i, rt) && a.node == i
    requires rt'.writes == rt.writes - {a.request} && rt'.gets.Keys == rt.gets.Keys - {a.request}
    requires QueueOk(p, i, rt'.raftQ)
    requires forall k {:trigger RefusalOk(p, i, rt'.storeQ[k])} ::
               0 <= k < |rt'.storeQ| ==> RefusalOk(p, i, rt'.storeQ[k])
    ensures TablesOk(p.(answers := p.answers + [a]), i, rt')
  {
    var q := p.(answers := p.answers + [a]);
    forall k | 0 <= k < |rt'.raftQ| ensures TaskOk(q, i, rt'.raftQ[k]) { assert TaskOk(p, i, rt'.raftQ[k]); }
    forall k | 0 <= k < |rt'.storeQ| ensures RefusalOk(q, i, rt'.storeQ[k]) { assert RefusalOk(p, i, rt'.storeQ[k]); }
    forall r: nat | r in rt'.writes ensures WriteOk(q, i, r) {
      assert WriteOk(p, i, r);
      OneMoreAnswer(p, a, (i as nat, r));
    }
    forall r: nat | r in rt'.gets ensures GetOk(q, i, r) {
      assert r in rt'.gets.Keys;
      assert GetOk(p, i, r);
      OneMoreAnswer(p, a, (i as nat, r));
    }
  }

  lemma OneMoreAnswer(p: Past, a: Answer, key: Key)
    requires Unanswered(p, key) && AnswerKey(a) != key
    ensures Unanswered(p.(answers := p.answers + [a]), key)
  {
  }

  // ---------- the Raft loop's queue ----------

  lemma QueuePop(p: Past, i: Id, q: seq<RaftTask>)
    requires QueueOk(p, i, q) && |q| > 0
    ensures QueueOk(p, i, q[1..])
  {
    forall k | 0 <= k < |q[1..]| ensures TaskOk(p, i, q[1..][k]) { assert TaskOk(p, i, q[k + 1]); }
    forall j, k | 0 <= j < k < |q[1..]| ensures Apart(q[1..], j, k) { assert Apart(q, j + 1, k + 1); }
  }

  lemma QueuePush(p: Past, i: Id, q: seq<RaftTask>, t: RaftTask)
    requires QueueOk(p, i, q) && TaskOk(p, i, t)
    requires t.ProposeTask? ==> forall k :: 0 <= k < |q| && q[k].ProposeTask? ==> q[k].cmd.request != t.cmd.request
    ensures QueueOk(p, i, q + [t])
  {
    var r := q + [t];
    forall k | 0 <= k < |r| ensures TaskOk(p, i, r[k]) { if k < |q| { assert TaskOk(p, i, q[k]); } }
    forall j, k | 0 <= j < k < |r| ensures Apart(r, j, k) {
      if k < |q| { assert Apart(q, j, k); }
    }
  }

  /** The tables of `i` when only its queues move. */
  lemma TablesMove(p: Past, i: Id, rt: Rt, rt': Rt)
    requires TablesOk(p, i, rt) && rt'.writes == rt.writes && rt'.gets == rt.gets
    requires rt'.raftQ == rt.raftQ || (|rt.raftQ| > 0 && rt'.raftQ == rt.raftQ[1..])
    requires |rt.storeQ| <= |rt'.storeQ| && rt'.storeQ[..|rt.storeQ|] == rt.storeQ
    requires forall k {:trigger rt'.storeQ[k]} :: |rt.storeQ| <= k < |rt'.storeQ| ==> !rt'.storeQ[k].RejectWrite?
    ensures TablesOk(p, i, rt')
  {
    if rt'.raftQ != rt.raftQ { QueuePop(p, i, rt.raftQ); }
    forall k | 0 <= k < |rt'.storeQ| ensures RefusalOk(p, i, rt'.storeQ[k]) {
      if k < |rt.storeQ| {
        assert rt'.storeQ[..|rt.storeQ|][k] == rt'.storeQ[k];
        assert RefusalOk(p, i, rt.storeQ[k]);
      }
    }
  }

  lemma SamePast(p: Past, i: Id)
    ensures PastGrows(p, p, i)
  {
    assert p.answers[..|p.answers|] == p.answers;
  }

  lemma QueueMoveKeeps(s: Sys, st: SysStep, s': Sys)
    requires ClientsOk(s) && NextSys(s, st, s')
    requires st.DropAck? || st.CancelHead? || st.RejectReads? || st.DispatchNext? || st.CaptureNow? || st.StartRestore?
    ensures ClientsOk(s')
  {
    var i := st.id;
    var rt, rt' := s.rts[i], s'.rts[i];
    assert TablesOk(s.past, i, rt);
    assert rt'.storeQ[..|rt.storeQ|] == rt.storeQ;
    TablesMove(s.past, i, rt, rt');
    SamePast(s.past, i);
    Assembled(s, i, s');
  }

  // ---------- proposing ----------

  lemma ProposedPast(p: Past, i: Id, n: Node, c: Command)
    requires PastOk(p) && TaskOk(p, i, ProposeTask(c))
    ensures PastOk(Happened(p, i, n, DoPropose(Some(c))))
    ensures PastGrows(p, Happened(p, i, n, DoPropose(Some(c))), i)
  {
    var q := Happened(p, i, n, DoPropose(Some(c)));
    assert q.answers[..|p.answers|] == p.answers;
    forall e | e in q.created ensures CreatedOk(q, e) { assert e in p.created ==> CreatedOk(p, e); }
    forall k | 0 <= k < |q.answers| ensures AnswerOk(q, q.answers[k]) { assert AnswerOk(p, p.answers[k]); }
    forall j, k | 0 <= j < k < |q.answers| ensures Distinct(q, j, k) { assert Distinct(p, j, k); }
  }

  lemma ProposedTables(p: Past, i: Id, n: Node, rt: Rt)
    requires PastOk(p) && TablesOk(p, i, rt) && |rt.raftQ| > 0 && rt.raftQ[0].ProposeTask? && n.Valid()
    ensures var a := DoPropose(Some(rt.raftQ[0].cmd)); TablesOk(Happened(p, i, n, a), i, AfterAct(rt, n, a))
  {
    var a := DoPropose(Some(rt.raftQ[0].cmd));
    var q, rt' := Happened(p, i, n, a), AfterAct(rt, n, a);
    QueuePop(p, i, rt.raftQ);
    forall k | 0 <= k < |rt'.raftQ| ensures TaskOk(q, i, rt'.raftQ[k]) {
      assert TaskOk(p, i, rt.raftQ[k + 1]) && Apart(rt.raftQ, 0, k + 1);
    }
    forall k | 0 <= k < |rt'.storeQ| ensures RefusalOk(q, i, rt'.storeQ[k]) {
      if k < |rt.storeQ| { assert RefusalOk(p, i, rt.storeQ[k]); }
    }
    forall r: nat | r in rt'.writes ensures WriteOk(q, i, r) { assert WriteOk(p, i, r); }
    forall r: nat | r in rt'.gets ensures GetOk(q, i, r) { assert GetOk(p, i, r); }
  }

  /** No other action touches the requests; a read may create a no-op. */
  lemma PlainPast(p: Past, i: Id, n: Node, a: Action)
    requires PastOk(p) && !a.DoPropose?
    ensures PastOk(Happened(p, i, n, a)) && PastGrows(p, Happened(p, i, n, a), i)
  {
    var q := Happened(p, i, n, a);
    assert q.answers[..|p.answers|] == p.answers;
    forall e | e in q.created ensures CreatedOk(q, e) { assert e in p.created ==> CreatedOk(p, e); }
    forall k | 0 <= k < |q.answers| ensures AnswerOk(q, q.answers[k]) { assert AnswerOk(p, p.answers[k]); }
    forall j, k | 0 <= j < k < |q.answers| ensures Distinct(q, j, k) { assert Distinct(p, j, k); }
  }

  /** Such an action takes at most the head of its queue and posts no refusal of a write. */
  lemma PlainShape(n: Node, a: Action, rt: Rt)
    requires !a.DoPropose? && n.Valid()
    ensures var rt' := AfterAct(rt, n, a);
            && rt'.writes == rt.writes && rt'.gets == rt.gets
            && (rt'.raftQ == rt.raftQ || (|rt.raftQ| > 0 && rt'.raftQ == rt.raftQ[1..]))
            && |rt.storeQ| <= |rt'.storeQ| && rt'.storeQ[..|rt.storeQ|] == rt.storeQ
            && forall k {:trigger rt'.storeQ[k]} :: |rt.storeQ| <= k < |rt'.storeQ| ==> !rt'.storeQ[k].RejectWrite?
  {
    if a.DoFinishReadIndex? {
      var more := Served(rt.rounds, a.read, n.applied);
      forall k {:trigger more[k]} | 0 <= k < |more| ensures more[k].ServeRead? {
        ServedTasks(rt.rounds, a.read, n.applied, k);
      }
    }
  }

  lemma PlainTables(p: Past, i: Id, n: Node, a: Action, rt: Rt)
    requires TablesOk(p, i, rt) && !a.DoPropose? && n.Valid()
    ensures TablesOk(Happened(p, i, n, a), i, AfterAct(rt, n, a))
  {
    var q, rt' := Happened(p, i, n, a), AfterAct(rt, n, a);
    PlainShape(n, a, rt);
    TablesMove(p, i, rt, rt');
    MoreCreated(p, i, rt', q.created);
    assert q == p.(created := q.created);
  }

  lemma MoreCreated(p: Past, i: Id, rt: Rt, created: set<Entry>)
    requires TablesOk(p, i, rt)
    ensures TablesOk(p.(created := created), i, rt)
  {
    var q := p.(created := created);
    forall k | 0 <= k < |rt.raftQ| ensures TaskOk(q, i, rt.raftQ[k]) { assert TaskOk(p, i, rt.raftQ[k]); }
    forall k | 0 <= k < |rt.storeQ| ensures RefusalOk(q, i, rt.storeQ[k]) { assert RefusalOk(p, i, rt.storeQ[k]); }
    forall r: nat | r in rt.writes ensures WriteOk(q, i, r) { assert WriteOk(p, i, r); }
    forall r: nat | r in rt.gets ensures GetOk(q, i, r) { assert GetOk(p, i, r); }
  }

  lemma RunRaftClients(s: Sys, i: Id, a: Action, s': Sys)
    requires ClientsOk(s) && NextSys(s, RunRaft(i, a), s')
    ensures ClientsOk(s')
  {
    var rt, n := s.rts[i], NodeAt(s.cluster, i);
    assert TablesOk(s.past, i, rt);
    if a.DoPropose? {
      assert TaskOk(s.past, i, rt.raftQ[0]);
      ProposedPast(s.past, i, n, rt.raftQ[0].cmd);
      ProposedTables(s.past, i, n, rt);
    } else {
      PlainPast(s.past, i, n, a);
      PlainTables(s.past, i, n, a, rt);
    }
    Assembled(s, i, s');
  }

  lemma CrashClients(s: Sys, i: Id, a: Action, written: nat, s': Sys)
    requires ClientsOk(s) && NextSys(s, Crash(i, a, written), s')
    ensures ClientsOk(s')
  {
    var rt, n := s.rts[i], NodeAt(s.cluster, i);
    assert TablesOk(s.past, i, rt);
    if a.DoPropose? {
      assert TaskOk(s.past, i, rt.raftQ[0]);
      ProposedPast(s.past, i, n, rt.raftQ[0].cmd);
    } else {
      PlainPast(s.past, i, n, a);
    }
    StoppingTables(s.past, i, n, a, rt);
    Assembled(s, i, s');
  }

  /** Stopping drops what waits for the Raft loop and keeps every pending request. */
  lemma StoppingTables(p: Past, i: Id, n: Node, a: Action, rt: Rt)
    requires TablesOk(p, i, rt)
    ensures TablesOk(Happened(p, i, n, a), i, Stopping(rt, a))
  {
    var q, rt' := Happened(p, i, n, a), Stopping(rt, a);
    forall k | 0 <= k < |rt'.storeQ| ensures RefusalOk(q, i, rt'.storeQ[k]) {
      if k < |rt.storeQ| { assert RefusalOk(p, i, rt.storeQ[k]); }
    }
    forall r: nat | r in rt'.writes ensures WriteOk(q, i, r) { assert WriteOk(p, i, r); }
    forall r: nat | r in rt'.gets ensures GetOk(q, i, r) { assert GetOk(p, i, r); }
  }

  lemma BootClients(s: Sys, i: Id, s': Sys)
    requires ClientsOk(s) && NextSys(s, Boot(i), s')
    ensures ClientsOk(s')
  {
    SamePast(s.past, i);
    Assembled(s, i, s');
  }

  // ---------- new requests ----------

  lemma FreshKey(p: Past, key: Key)
    requires PastOk(p) && key !in p.used
    ensures Unanswered(p, key)
  {
    forall k {:trigger p.answers[k]} | 0 <= k < |p.answers| ensures AnswerKey(p.answers[k]) != key {
      assert AnswerOk(p, p.answers[k]);
    }
  }

  lemma IssuePast(p: Past, q: Past, i: Id, key: Key)
    requires PastOk(p) && key !in p.used && key.0 == i && q.used == p.used + {key}
    requires q == p.(used := q.used, issued := q.issued)
    requires q.issued == p.issued || (key in q.issued && q.issued == p.issued[key := q.issued[key]])
    ensures PastOk(q) && PastGrows(p, q, i)
  {
    assert q.answers[..|p.answers|] == p.answers;
    forall e | e in q.created ensures CreatedOk(q, e) { assert CreatedOk(p, e); }
    forall k | 0 <= k < |q.answers| ensures AnswerOk(q, q.answers[k]) { assert AnswerOk(p, p.answers[k]); }
    forall j, k | 0 <= j < k < |q.answers| ensures Distinct(q, j, k) { assert Distinct(p, j, k); }
  }

  /** The tables of `i` with its record extended by the fresh key alone. */
  lemma IssueTables(p: Past, q: Past, i: Id, rt: Rt, key: Key)
    requires PastOk(p) && TablesOk(p, i, rt) && key !in p.used && key.0 == i
    requires q == p.(used := p.used + {key}, issued := q.issued)
    requires q.issued == p.issued || (key in q.issued && q.issued == p.issued[key := q.issued[key]])
    ensures TablesOk(q, i, rt)
  {
    forall k | 0 <= k < |rt.raftQ| ensures TaskOk(q, i, rt.raftQ[k]) { assert TaskOk(p, i, rt.raftQ[k]); }
    forall k | 0 <= k < |rt.storeQ| ensures RefusalOk(q, i, rt.storeQ[k]) { assert RefusalOk(p, i, rt.storeQ[k]); }
    forall r: nat | r in rt.writes ensures WriteOk(q, i, r) { assert WriteOk(p, i, r); }
    forall r: nat | r in rt.gets ensures GetOk(q, i, r) { assert GetOk(p, i, r); }
  }

  lemma WriteClients(s: Sys, i: Id, c: Command, s': Sys)
    requires ClientsOk(s) && NextSys(s, Write(i, c), s')
    ensures ClientsOk(s')
  {
    var p, q, rt, key := s.past, s'.past, s.rts[i], (i as nat, c.request);
    assert TablesOk(p, i, rt);
    IssuePast(p, q, i, key);
    IssueTables(p, q, i, rt, key);
    FreshKey(p, key);
    assert key !in p.refused;
    forall k | 0 <= k < |rt.raftQ| && rt.raftQ[k].ProposeTask? ensures rt.raftQ[k].cmd.request != c.request {
      assert TaskOk(p, i, rt.raftQ[k]);
    }
    assert key !in p.proposed;
    QueuePush(q, i, rt.raftQ, ProposeTask(c));
    assert WriteOk(q, i, c.request);
    Assembled(s, i, s');
  }

  lemma GetClients(s: Sys, i: Id, request: nat, key: string, s': Sys)
    requires ClientsOk(s) && NextSys(s, Get(i, request, key), s')
    ensures ClientsOk(s')
  {
    var p, q, rt := s.past, s'.past, s.rts[i];
    assert TablesOk(p, i, rt);
    IssuePast(p, q, i, (i as nat, request));
    IssueTables(p, q, i, rt, (i as nat, request));
    FreshKey(p, (i as nat, request));
    QueuePush(q, i, rt.raftQ, ReadTask(request));
    assert GetOk(q, i, request);
    Assembled(s, i, s');
  }

  // ---------- the store loop ----------

  lemma StorePopTables(p: Past, i: Id, rt: Rt)
    requires TablesOk(p, i, rt) && |rt.storeQ| > 0
    ensures TablesOk(p, i, rt.(storeQ := rt.storeQ[1..]))
    ensures RefusalOk(p, i, rt.storeQ[0])
  {
    var tail := rt.storeQ[1..];
    forall k | 0 <= k < |tail| ensures RefusalOk(p, i, tail[k]) { assert RefusalOk(p, i, rt.storeQ[k + 1]); }
    assert RefusalOk(p, i, rt.storeQ[0]);
  }

  /** Whatever the store loop does, it gives at most one answer, and that answer is right. */
  ghost predicate TurnOk(p: Past, i: Id, rt: Rt, turn: Turn) {
    && QueueOk(p, i, turn.rt.raftQ)
    && (forall k {:trigger RefusalOk(p, i, turn.rt.storeQ[k])} ::
          0 <= k < |turn.rt.storeQ| ==> RefusalOk(p, i, turn.rt.storeQ[k]))
    && (turn.answers == [] ==> turn.rt.writes == rt.writes && turn.rt.gets == rt.gets)
    && (turn.answers != [] ==>
          var a := Answer(i, turn.answers[0].0, turn.answers[0].1);
          && turn.rt.writes == rt.writes - {a.request} && turn.rt.gets.Keys == rt.gets.Keys - {a.request}
          && Unanswered(p, AnswerKey(a)) && AnswerOk(p, a))
  }

  lemma TurnKeeps(s: Sys, i: Id, turn: Turn)
    requires ClientsOk(s) && i in s.rts && TurnOk(s.past, i, s.rts[i], turn)
    ensures ClientsOk(s.(rts := s.rts[i := turn.rt], past := Answered(s.past, i, turn.answers)))
  {
    var s' := s.(rts := s.rts[i := turn.rt], past := Answered(s.past, i, turn.answers));
    assert TablesOk(s.past, i, s.rts[i]);
    if turn.answers == [] {
      SamePast(s.past, i);
      forall r: nat | r in turn.rt.writes ensures WriteOk(s.past, i, r) { assert WriteOk(s.past, i, r); }
    } else {
      var a := Answer(i, turn.answers[0].0, turn.answers[0].1);
      AnswerKeeps(s.past, i, a);
      TablesAfterAnswer(s.past, i, s.rts[i], turn.rt, a);
    }
    Assembled(s, i, s');
  }

  /** A write and a read never share a request id. */
  lemma Separate(p: Past, i: Id, rt: Rt, r: nat)
    requires TablesOk(p, i, rt)
    ensures r in rt.writes ==> r !in rt.gets
  {
    assert r in rt.writes ==> WriteOk(p, i, r);
    assert r in rt.gets ==> GetOk(p, i, r);
  }

  /** An entry is answered only to its own writer, whose request ends with it. */
  lemma ApplyTurn(p: Past, i: Id, rt: Rt)
    requires PastOk(p) && TablesOk(p, i, rt) && |rt.storeQ| > 0 && rt.storeQ[0].ApplyTask?
    ensures TurnOk(p, i, rt, ServeHead(i, rt))
  {
    var e := rt.storeQ[0].entry;
    StorePopTables(p, i, rt);
    QueuePush(p, i, rt.raftQ, Ack(e.index));
    if e.data.Some? && e.data.value.request in rt.writes {
      assert WriteOk(p, i, e.data.value.request);
      Separate(p, i, rt, e.data.value.request);
    }
    ApplyTouches(i, rt);
  }

  /** What a turn that takes an entry does to queues and tables. */
  lemma ApplyTouches(i: Id, rt: Rt)
    requires |rt.storeQ| > 0 && rt.storeQ[0].ApplyTask?
    ensures var e, turn := rt.storeQ[0].entry, ServeHead(i, rt);
            && (turn.rt.raftQ == rt.raftQ || turn.rt.raftQ == rt.raftQ + [Ack(e.index)])
            && turn.rt.storeQ == rt.storeQ[1..] && turn.rt.gets == rt.gets
            && (turn.answers == [] ==> turn.rt.writes == rt.writes)
            && (turn.answers != [] ==>
                  && e.data.Some? && e.data.value.request in rt.writes && turn.answers[0].0 == e.data.value.request
                  && turn.rt.writes == rt.writes - {e.data.value.request} && turn.answers[0].1.Done?)
  {
  }

  lemma ReplyTurn(p: Past, i: Id, rt: Rt)
    requires PastOk(p) && TablesOk(p, i, rt) && |rt.storeQ| > 0 && !rt.storeQ[0].ApplyTask?
    ensures TurnOk(p, i, rt, ServeHead(i, rt))
  {
    StorePopTables(p, i, rt);
    match rt.storeQ[0]
    case CaptureTask => QueuePush(p, i, rt.raftQ, Captured(rt.storeApplied, rt.store));
    case RestoreTask(_, _) =>
    case RejectWrite(r) => WriteTurn(p, i, rt);
    case FailWrite(r) => WriteTurn(p, i, rt);
    case RejectRead(r) => GetTurn(p, i, rt);
    case ServeRead(r, _) => GetTurn(p, i, rt);
  }

  lemma WriteTurn(p: Past, i: Id, rt: Rt)
    requires PastOk(p) && TablesOk(p, i, rt) && |rt.storeQ| > 0
    requires (rt.storeQ[0].RejectWrite? || rt.storeQ[0].FailWrite?)
    ensures TurnOk(p, i, rt, ServeHead(i, rt))
  {
    StorePopTables(p, i, rt);
    var r := rt.storeQ[0].request;
    Separate(p, i, rt, r);
    assert r in rt.writes ==> WriteOk(p, i, r);
  }

  lemma GetTurn(p: Past, i: Id, rt: Rt)
    requires PastOk(p) && TablesOk(p, i, rt) && |rt.storeQ| > 0 && (rt.storeQ[0].RejectRead? || rt.storeQ[0].ServeRead?)
    ensures TurnOk(p, i, rt, ServeHead(i, rt))
  {
    StorePopTables(p, i, rt);
    var r := rt.storeQ[0].request;
    Separate(p, i, rt, r);
    assert r in rt.gets ==> GetOk(p, i, r);
  }

  lemma RunStoreClients(s: Sys, i: Id, s': Sys)
    requires ClientsOk(s) && NextSys(s, RunStore(i), s')
    ensures ClientsOk(s')
  {
    var rt := s.rts[i];
    assert TablesOk(s.past, i, rt);
    if rt.storeQ[0].ApplyTask? {
      ApplyTurn(s.past, i, rt);
    } else {
      ReplyTurn(s.past, i, rt);
    }
    TurnKeeps(s, i, ServeHead(i, rt));
  }

  lemma ExpireClients(s: Sys, i: Id, request: nat, s': Sys)
    requires ClientsOk(s) && NextSys(s, Expire(i, request), s')
    ensures ClientsOk(s')
  {
    var p, rt := s.past, s.rts[i];
    assert TablesOk(p, i, rt);
    Separate(p, i, rt, request);
    QueuePush(p, i, rt.raftQ, CancelRead(request));
    var turn := if request in rt.writes then ExpireWrite(rt, request) else ExpireRead(rt, request);
    assert request in rt.writes ==> WriteOk(p, i, request);
    assert request in rt.gets ==> GetOk(p, i, request);
    TurnKeeps(s, i, turn);
  }

  // ---------- over whole runs ----------

  lemma ClientStep(s: Sys, st: SysStep, s': Sys)
    requires ClientsOk(s) && NextSys(s, st, s')
    ensures ClientsOk(s')
  {
    match st
    case RunRaft(i, a) => RunRaftClients(s, i, a, s');
    case DropAck(_) => QueueMoveKeeps(s, st, s');
    case CancelHead(_) => QueueMoveKeeps(s, st, s');
    case RejectReads(_) => QueueMoveKeeps(s, st, s');
    case DispatchNext(_) => QueueMoveKeeps(s, st, s');
    case CaptureNow(_) => QueueMoveKeeps(s, st, s');
    case StartRestore(_, _) => QueueMoveKeeps(s, st, s');
    case RunStore(i) => RunStoreClients(s, i, s');
    case Write(i, c) => WriteClients(s, i, c, s');
    case Get(i, request, key) => GetClients(s, i, request, key, s');
    case Expire(i, request) => ExpireClients(s, i, request, s');
    case Crash(i, a, written) => CrashClients(s, i, a, written, s');
    case Boot(i) => BootClients(s, i, s');
  }

  lemma {:induction false} ClientsUpTo(ss: seq<Sys>, steps: seq<SysStep>, k: nat)
    requires SysRun(ss, steps) && k < |ss|
    ensures ClientsOk(ss[k])
    decreases k
  {
    if k == 0 {
      forall i: Id | i in ss[0].rts ensures TablesOk(ss[0].past, i, ss[0].rts[i]) {
        assert ss[0].rts[i] == Started(map[], 0);
      }
    } else {
      ClientsUpTo(ss, steps, k - 1);
      assert StepAt(ss, steps, k - 1);
      ClientStep(ss[k - 1], steps[k - 1], ss[k]);
    }
  }

  /** Each request is answered at most once. */
  lemma AnsweredOnce(ss: seq<Sys>, steps: seq<SysStep>, k: nat, a: nat, b: nat)
    requires SysRun(ss, steps) && k < |ss| && a < b < |ss[k].past.answers|
    ensures AnswerKey(ss[k].past.answers[a]) != AnswerKey(ss[k].past.answers[b])
  {
    ClientsUpTo(ss, steps, k);
    assert Distinct(ss[k].past, a, b);
  }

  // ---------- when an answer is given ----------

  /** Step `j` gives answer `a`. */
  ghost predicate Gives(ss: seq<Sys>, j: nat, a: nat, answer: Answer) {
    && j + 1 < |ss| && |ss[j].past.answers| == a
    && ss[j + 1].past.answers == ss[j].past.answers + [answer]
  }

  /** The store loop answers, and expiry; nothing else does. */
  lemma AnswersFrom(s: Sys, st: SysStep, s': Sys)
    requires NextSys(s, st, s')
    ensures s'.past.answers == s.past.answers || st.RunStore? ||
            (st.Expire? && exists r: nat :: s'.past.answers == s.past.answers + [Answer(st.id, r, TryAgain)])
  {
    match st
    case RunStore(_) =>
    case Expire(i, r) => assert s'.past.answers == s.past.answers
        || s'.past.answers == s.past.answers + [Answer(i, r, TryAgain)];
    case _ =>
  }

  lemma AnswersGrow(s: Sys, st: SysStep, s': Sys)
    requires NextSys(s, st, s')
    ensures s'.past.answers == s.past.answers ||
            (|s'.past.answers| == |s.past.answers| + 1
             && s'.past.answers == s.past.answers + [s'.past.answers[|s.past.answers|]])
  {
    AnswersFrom(s, st, s');
  }

  /** A value or a completion is answered by the store loop. */
  lemma AnswerOfStore(s: Sys, st: SysStep, s': Sys, answer: Answer)
    requires NextSys(s, st, s') && s'.past.answers == s.past.answers + [answer] && !answer.reply.TryAgain?
    ensures st.RunStore? && st.id in s.rts && s.rts[st.id].storeQ != []
    ensures ServeHead(st.id, s.rts[st.id]).answers != []
    ensures var first := ServeHead(st.id, s.rts[st.id]).answers[0]; answer == Answer(st.id, first.0, first.1)
  {
    AnswersFrom(s, st, s');
    assert answer == s'.past.answers[|s.past.answers|];
  }

  /** Every answer was given by one step. */
  lemma {:induction false} GivenBy(ss: seq<Sys>, steps: seq<SysStep>, k: nat, a: nat) returns (j: nat)
    requires SysRun(ss, steps) && k < |ss| && a < |ss[k].past.answers|
    ensures j < k && Gives(ss, j, a, ss[k].past.answers[a])
    decreases k
  {
    if k > 0 {
      assert StepAt(ss, steps, k - 1);
      AnswersGrow(ss[k - 1], steps[k - 1], ss[k]);
      if a < |ss[k - 1].past.answers| {
        j := GivenBy(ss, steps, k - 1, a);
      } else {
        j := k - 1;
      }
    }
  }

  // ---------- writes reported done ----------

  /** Node `i` takes the command of a request as the entry after everything it has applied, has it
      committed, applies it from `s` to `s'`, and answers with what it affected. */
  ghost predicate AppliesAndAnswers(s: Sys, i: Id, s': Sys, answer: Answer) {
    && answer.node == i && answer.reply.Done? && Running(s, i) && i in s'.rts && AnswerKey(answer) in s.past.issued
    && var index, rt, rt', cmd := answer.reply.index, s.rts[i], s'.rts[i], s.past.issued[AnswerKey(answer)];
       && rt.storeQ != [] && rt.storeQ[0].ApplyTask?
       && rt.storeQ[0].entry.index == index && rt.storeQ[0].entry.data == Some(cmd)
       && rt.storeApplied + 1 == index == rt'.storeApplied <= NodeAt(s.cluster, i).commit
       && ApplyCommand(rt.store, cmd) == Some(Applied(rt'.store, answer.reply.affected))
  }

  lemma DoneTask(i: Id, rt: Rt)
    requires rt.storeQ != [] && ServeHead(i, rt).answers != [] && ServeHead(i, rt).answers[0].1.Done?
    ensures rt.storeQ[0].ApplyTask? && !rt.stopped
  {
  }

  /** The answer of a turn that applies the next entry. */
  lemma DoneTurn(i: Id, rt: Rt)
    requires rt.storeQ != [] && rt.storeQ[0].ApplyTask? && !rt.stopped && ServeHead(i, rt).answers != []
    requires rt.storeQ[0].entry.index == rt.storeApplied + 1
    ensures var e, turn := rt.storeQ[0].entry, ServeHead(i, rt);
            && e.data.Some? && e.data.value.origin == i && turn.answers[0].0 == e.data.value.request
            && turn.answers[0].1.Done? && turn.answers[0].1.index == e.index == turn.rt.storeApplied
            && ApplyCommand(rt.store, e.data.value) == Some(Applied(turn.rt.store, turn.answers[0].1.affected))
  {
  }

  lemma DoneStep(s: Sys, st: SysStep, s': Sys, answer: Answer, count: nat)
    requires ClientsOk(s) && SysOk(s, Many(count)) && Circulates(s) && NextSys(s, st, s')
    requires s'.past.answers == s.past.answers + [answer] && answer.reply.Done?
    ensures st.RunStore? && AppliesAndAnswers(s, st.id, s', answer)
  {
    var i := st.id;
    AnswerOfStore(s, st, s', answer);
    var rt := s.rts[i];
    DoneTask(i, rt);
    DoneInOrder(s, i, s', count);
    DoneTurn(i, rt);
    assert CreatedOk(s.past, rt.storeQ[0].entry);
  }

  lemma DoneInOrder(s: Sys, i: Id, s': Sys, count: nat)
    requires SysOk(s, Many(count)) && Circulates(s) && NextSys(s, RunStore(i), s')
    requires !s.rts[i].stopped && s.rts[i].storeQ[0].ApplyTask?
    ensures Running(s, i) && s.rts[i].storeQ[0].entry in s.past.created
    ensures s.rts[i].storeQ[0].entry.index == s.rts[i].storeApplied + 1 <= NodeAt(s.cluster, i).commit
  {
    assert MemberOk(s, Many(count), i) && MemberWithin(s, i);
    ApplyHeadKeeps(i, s.rts[i], NodeAt(s.cluster, i), Many(count));
  }

  /** A write is reported done only after its own command was applied at a committed index: the
      step that gives the answer applies the very command the client sent, as the entry after
      everything applied so far; the node has that index committed, and the reported count is
      what the command affected. */
  lemma DoneMeansApplied(ss: seq<Sys>, steps: seq<SysStep>, k: nat, a: nat) returns (j: nat)
    requires SysRun(ss, steps) && k < |ss| && a < |ss[k].past.answers| && ss[k].past.answers[a].reply.Done?
    ensures j < k && Gives(ss, j, a, ss[k].past.answers[a])
    ensures steps[j].RunStore? && AppliesAndAnswers(ss[j], steps[j].id, ss[j + 1], ss[k].past.answers[a])
  {
    j := GivenBy(ss, steps, k, a);
    ClientsUpTo(ss, steps, j);
    var count := RunInOrder(ss, steps);
    assert SysOk(ss[j], Many(count)) && StepAt(ss, steps, j);
    DoneStep(ss[j], steps[j], ss[j + 1], ss[k].past.answers[a], count);
  }

  /** The command of `key` is the chosen entry at `index`, and applying it there affected
      `affected` keys. */
  ghost predicate AppliedAt(p: Past, chosen: Log, key: Key, index: nat, affected: nat) {
    && key in p.issued && 0 < index <= |chosen|
    && chosen[index - 1].data == Some(p.issued[key])
    && ApplyCommand(Fold(chosen, index - 1), p.issued[key]) == Some(Applied(Fold(chosen, index), affected))
  }

  /** Where one log is chosen, the command is in it at the reported index, and the reported count
      is what it affects there. */
  lemma DoneIsChosen(ss: seq<Sys>, steps: seq<SysStep>) returns (chosen: Log)
    requires CarefulSysRun(ss, steps)
    ensures AllOk(ss, Chosen(chosen)) && CommittedBySome(ss[|ss| - 1].cluster, |chosen|)
    ensures forall k, a {:trigger ss[k].past.answers[a]} ::
              0 <= k < |ss| && 0 <= a < |ss[k].past.answers| && ss[k].past.answers[a].reply.Done? ==>
                var answer := ss[k].past.answers[a];
                AppliedAt(ss[k].past, chosen, AnswerKey(answer), answer.reply.index, answer.reply.affected)
  {
    chosen := RunOk(ss, steps);
    forall k, a {:trigger ss[k].past.answers[a]} |
        0 <= k < |ss| && 0 <= a < |ss[k].past.answers| && ss[k].past.answers[a].reply.Done?
      ensures var answer := ss[k].past.answers[a];
              AppliedAt(ss[k].past, chosen, AnswerKey(answer), answer.reply.index, answer.reply.affected)
    {
      var j := DoneIn(ss, steps, chosen, k, a);
      IssuedStays(ss, steps, j, k, AnswerKey(ss[k].past.answers[a]));
    }
  }

  lemma {:induction false} IssuedStays(ss: seq<Sys>, steps: seq<SysStep>, j: nat, k: nat, key: Key)
    requires SysRun(ss, steps) && j <= k < |ss| && key in ss[j].past.issued
    ensures key in ss[k].past.issued && ss[k].past.issued[key] == ss[j].past.issued[key]
    decreases k
  {
    if j < k {
      IssuedStays(ss, steps, j, k - 1, key);
      ClientsUpTo(ss, steps, k - 1);
      assert StepAt(ss, steps, k - 1);
    }
  }

  lemma DoneIn(ss: seq<Sys>, steps: seq<SysStep>, chosen: Log, k: nat, a: nat) returns (j: nat)
    requires SysRun(ss, steps) && AllOk(ss, Chosen(chosen))
    requires k < |ss| && a < |ss[k].past.answers| && ss[k].past.answers[a].reply.Done?
    ensures j < k && Gives(ss, j, a, ss[k].past.answers[a])
    ensures steps[j].RunStore? && AppliesAndAnswers(ss[j], steps[j].id, ss[j + 1], ss[k].past.answers[a])
    ensures var answer := ss[k].past.answers[a];
            AppliedAt(ss[j].past, chosen, AnswerKey(answer), answer.reply.index, answer.reply.affected)
  {
    j := DoneMeansApplied(ss, steps, k, a);
    assert SysOk(ss[j], Chosen(chosen)) && SysOk(ss[j + 1], Chosen(chosen)) && Circulates(ss[j]);
    ChosenCommand(ss[j], steps[j].id, ss[j + 1], ss[k].past.answers[a], chosen);
  }

  lemma ChosenCommand(s: Sys, i: Id, s': Sys, answer: Answer, chosen: Log)
    requires AppliesAndAnswers(s, i, s', answer) && Circulates(s)
    requires SysOk(s, Chosen(chosen)) && SysOk(s', Chosen(chosen))
    ensures AppliedAt(s.past, chosen, AnswerKey(answer), answer.reply.index, answer.reply.affected)
  {
    assert MemberOk(s, Chosen(chosen), i) && MemberOk(s', Chosen(chosen), i) && MemberWithin(s, i);
    ApplyHeadKeeps(i, s.rts[i], NodeAt(s.cluster, i), Chosen(chosen));
    assert s'.rts[i].store == Fold(chosen, answer.reply.index) by { StoreOf(s', i, chosen); }
    assert s.rts[i].store == Fold(chosen, answer.reply.index - 1);
  }

  lemma StoreOf(s: Sys, i: Id, chosen: Log)
    requires MemberOk(s, Chosen(chosen), i) && i in s.rts
    ensures Folded(Chosen(chosen), s.rts[i].storeApplied, s.rts[i].store)
  {
  }

  // ---------- writes refused ----------

  /** The command of `key` is in no log, in no write-ahead log and in no message. */
  ghost predicate NowhereIn(c: State, key: Key) {
    && (forall i: Id, x: nat :: i in c.slots && x < |c.slots[i].wal| && c.slots[i].wal[x].EntryRecord? ==>
          !Carries(c.slots[i].wal[x].entry, key))
    && (forall i: Id, x: nat :: Up(c, i) && x < |NodeAt(c, i).log| ==> !Carries(NodeAt(c, i).log[x], key))
    && (forall m, x: nat :: m in c.net && m.AppendEntries? && x < |m.entries| ==> !Carries(m.entries[x], key))
  }

  predicate Carries(e: Entry, key: Key) {
    e.data.Some? && KeyOf(e.data.value) == key
  }

  lemma {:induction false} RefusedStays(ss: seq<Sys>, steps: seq<SysStep>, j: nat, k: nat, key: Key)
    requires SysRun(ss, steps) && j <= k < |ss| && key in ss[j].past.refused
    ensures key in ss[k].past.refused
    decreases k
  {
    if j < k {
      RefusedStays(ss, steps, j, k - 1, key);
      assert StepAt(ss, steps, k - 1);
    }
  }

  /** A write answered with NOT_LEADER never enters any log, neither before nor afterwards. */
  lemma RefusedNeverLogged(ss: seq<Sys>, steps: seq<SysStep>, j: nat, a: nat, k: nat)
    requires SysRun(ss, steps) && j < |ss| && k < |ss| && a < |ss[j].past.answers|
    requires ss[j].past.answers[a].reply.NotLeader? && AnswerKey(ss[j].past.answers[a]) in ss[j].past.issued
    ensures NowhereIn(ss[k].cluster, AnswerKey(ss[j].past.answers[a]))
  {
    var key := AnswerKey(ss[j].past.answers[a]);
    ClientsUpTo(ss, steps, j);
    assert AnswerOk(ss[j].past, ss[j].past.answers[a]);
    var last := if j < k then k else j;
    RefusedStays(ss, steps, j, last, key);
    ClientsUpTo(ss, steps, last);
    CreatedStays(ss, steps, k, last);
    RunCirculates(ss, steps, k);
    Absent(ss[k], ss[last].past, key);
  }

  lemma {:induction false} CreatedStays(ss: seq<Sys>, steps: seq<SysStep>, j: nat, k: nat)
    requires SysRun(ss, steps) && j <= k < |ss|
    ensures ss[j].past.created <= ss[k].past.created
    decreases k
  {
    if j < k {
      CreatedStays(ss, steps, j, k - 1);
      assert StepAt(ss, steps, k - 1);
    }
  }

  lemma Absent(s: Sys, p: Past, key: Key)
    requires Circulates(s) && PastOk(p) && s.past.created <= p.created && key in p.refused
    ensures NowhereIn(s.cluster, key)
  {
    forall e | e in s.past.created ensures !Carries(e, key) { assert CreatedOk(p, e); }
    forall i: Id, x: nat | Up(s.cluster, i) && x < |NodeAt(s.cluster, i).log|
      ensures !Carries(NodeAt(s.cluster, i).log[x], key)
    {
      assert MemberWithin(s, i);
      assert EntryIn(NodeAt(s.cluster, i).log, x, s.past.created);
    }
    forall i: Id, x: nat | i in s.cluster.slots && x < |s.cluster.slots[i].wal|
        && s.cluster.slots[i].wal[x].EntryRecord?
      ensures !Carries(s.cluster.slots[i].wal[x].entry, key)
    {
      assert MemberWithin(s, i);
      assert RecordWithin(s.cluster.slots[i].wal[x], s.past.created);
    }
    forall m, x: nat | m in s.cluster.net && m.AppendEntries? && x < |m.entries| ensures !Carries(m.entries[x], key) {
      assert MsgWithin(m, s.past.created);
      assert EntryIn(m.entries, x, s.past.created);
    }
  }
}
