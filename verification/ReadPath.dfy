/** A read from the client's request to the value the client gets. */
module ReadPath {
  import opened Proto
  import opened RaftNode
  import opened Replay
  import opened Cluster
  import opened Kv
  import opened Runtime
  import opened System
  import opened Safety
  import opened ApplyOnce
  import opened EndToEnd
  import opened Replies
  import opened Durability
  import opened Reads
  import opened ReadOrigins

  function ValueIn(store: Store, key: string): Option<string> {
    if key in store then Some(store[key]) else None
  }

  /** The steps of one read: the request, the opening of its round, the call that got the round's
      token, the step that found the round ready, the step that served the read. */
  datatype Journey = Journey(key: string, token: ReadToken, asked: nat, opening: nat, called: nat, ready: nat,
                             served: nat)

  ghost predicate Travels(ss: seq<Sys>, steps: seq<SysStep>, i: Id, r: nat, v: Journey)
    requires |ss| == |steps| + 1
  {
    && v.asked < v.called < v.ready < v.served < |steps| && v.opening <= v.called
    && steps[v.asked] == Get(i, r, v.key)
    && OpenSince(ss, steps, i, v.token, v.opening, v.ready)
    && Calls(ss, steps, i, r, v.token, v.opening, v.called)
    && steps[v.ready] == RunRaft(i, DoFinishReadIndex(v.token))
    && steps[v.served] == RunStore(i)
  }

  /** The round was ready at `v.ready`, and the answer is what the store holds when it serves the
      read, having applied at least what the core had then. */
  ghost predicate Answered(ss: seq<Sys>, i: Id, answer: Answer, v: Journey) {
    && v.ready < |ss| && v.served < |ss| && i in ss[v.served].rts && Up(ss[v.ready].cluster, i)
    && var n, rt := NodeAt(ss[v.ready].cluster, i), ss[v.served].rts[i];
       && ReadIndexReady(n, v.token) && v.token.safeIndex <= n.applied <= rt.storeApplied
       && answer.reply == Value(ValueIn(rt.store, v.key))
  }

  /** The answer is the value of the read's key after some first entries of the chosen log: those
      that the store has applied when it answers.  They are all committed by then, and they cover
      everything that any node had committed when the round was opened. */
  ghost predicate Fresh(ss: seq<Sys>, chosen: Log, i: Id, answer: Answer, v: Journey) {
    && v.opening < |ss| && v.served < |ss| && i in ss[v.served].rts
    && var x := ss[v.served].rts[i].storeApplied;
       && x <= |chosen| && answer.reply == Value(ValueIn(Fold(chosen, x), v.key))
       && CommittedBySome(ss[v.served].cluster, x) && CoversCommitted(ss[v.opening].cluster, x)
       && v.token.safeIndex <= x
  }

  /** No node, up or down, has committed beyond `x`. */
  ghost predicate CoversCommitted(c: State, x: nat) {
    && (forall m: Id :: m in c.slots)
    && (forall m: Id {:trigger DiskAt(c, m)} :: DiskAt(c, m).Commit() <= x)
  }

  /** Every value ever returned to a client was asked for, called for, found ready and served from
      the store, in this order and by one process. */
  lemma ServedReadIsTraced(ss: seq<Sys>, steps: seq<SysStep>, k: nat, a: nat) returns (v: Journey)
    requires SysRun(ss, steps) && k < |ss| && a < |ss[k].past.answers| && ss[k].past.answers[a].reply.Value?
    ensures v.served < k && Gives(ss, v.served, a, ss[k].past.answers[a])
    ensures var answer := ss[k].past.answers[a];
            && IsMember(answer.node) && Travels(ss, steps, answer.node, answer.request, v)
            && Answered(ss, answer.node, answer, v)
  {
    var l := GivenBy(ss, steps, k, a);
    var answer := ss[k].past.answers[a];
    ValueGiven(ss, steps, l, answer);
    v := JourneyOf(ss, steps, steps[l].id, l);
    ServedAt(ss, steps, steps[l].id, answer, l);
  }

  /** Where one log is chosen, the value is fresh as of the opening of the read's round. */
  lemma ServedReadIsFresh(ss: seq<Sys>, steps: seq<SysStep>, k: nat, a: nat) returns (chosen: Log, v: Journey)
    requires CarefulSysRun(ss, steps) && k < |ss| && a < |ss[k].past.answers| && ss[k].past.answers[a].reply.Value?
    ensures AllOk(ss, Chosen(chosen))
    ensures v.served < k && Gives(ss, v.served, a, ss[k].past.answers[a])
    ensures var answer := ss[k].past.answers[a];
            && IsMember(answer.node) && Travels(ss, steps, answer.node, answer.request, v)
            && Fresh(ss, chosen, answer.node, answer, v)
  {
    chosen := RunOk(ss, steps);
    v := ServedReadIsTraced(ss, steps, k, a);
    FreshWhenServed(ss, steps, chosen, steps[v.served].id, ss[k].past.answers[a], v);
  }

  lemma ValueGiven(ss: seq<Sys>, steps: seq<SysStep>, l: nat, answer: Answer)
    requires SysRun(ss, steps) && l < |steps| && answer.reply.Value?
    requires ss[l + 1].past.answers == ss[l].past.answers + [answer]
    ensures var i := steps[l].id;
            && steps[l] == RunStore(i) && i in ss[l].rts && answer.node == i
            && var rt := ss[l].rts[i];
               && rt.storeQ != [] && rt.storeQ[0].ServeRead? && rt.storeQ[0].request == answer.request
               && answer.request in rt.gets
  {
    assert StepAt(ss, steps, l);
    ValueStep(ss[l], steps[l], ss[l + 1], answer);
  }

  lemma FreshWhenServed(ss: seq<Sys>, steps: seq<SysStep>, chosen: Log, i: Id, answer: Answer, v: Journey)
    requires CarefulSysRun(ss, steps) && AllOk(ss, Chosen(chosen))
    requires Travels(ss, steps, i, answer.request, v) && Answered(ss, i, answer, v)
    ensures Fresh(ss, chosen, i, answer, v)
  {
    assert SysOk(ss[v.served], Chosen(chosen)) && MemberOk(ss[v.served], Chosen(chosen), i);
    AppliedIsCommitted(ss, steps, v.served, i);
    CoversOpening(ss, steps, i, v, ss[v.served].rts[i].storeApplied);
  }

  lemma ServedAt(ss: seq<Sys>, steps: seq<SysStep>, i: Id, answer: Answer, l: nat)
    requires SysRun(ss, steps) && l < |steps| && steps[l] == RunStore(i) && i in ss[l].rts
    requires var rt := ss[l].rts[i];
             && rt.storeQ != [] && rt.storeQ[0].ServeRead? && rt.storeQ[0].request == answer.request
             && answer.request in rt.gets
    requires ss[l + 1].past.answers == ss[l].past.answers + [answer]
    ensures var rt := ss[l].rts[i];
            && rt.storeQ[0].fence <= rt.storeApplied
            && answer.reply == Value(ValueIn(rt.store, rt.gets[answer.request]))
  {
    var count := RunInOrder(ss, steps);
    assert StepAt(ss, steps, l) && SysOk(ss[l], Many(count)) && MemberOk(ss[l], Many(count), i);
    ServedValue(ss[l], i, ss[l + 1], answer, count);
  }

  lemma CoversOpening(ss: seq<Sys>, steps: seq<SysStep>, i: Id, v: Journey, x: nat)
    requires CarefulSysRun(ss, steps) && v.ready < |steps| && OpenSince(ss, steps, i, v.token, v.opening, v.ready)
    requires Up(ss[v.ready].cluster, i) && ReadIndexReady(NodeAt(ss[v.ready].cluster, i), v.token)
    requires NodeAt(ss[v.ready].cluster, i).applied <= x
    ensures CoversCommitted(ss[v.opening].cluster, x)
  {
    forall m: Id ensures m in ss[v.opening].cluster.slots && DiskAt(ss[v.opening].cluster, m).Commit() <= x {
      FenceIsFresh(ss, steps, i, v.token, v.opening, v.ready, m);
    }
  }

  /** Only serving a read answers with a value. */
  lemma ValueStep(s: Sys, st: SysStep, s': Sys, answer: Answer)
    requires NextSys(s, st, s') && s'.past.answers == s.past.answers + [answer] && answer.reply.Value?
    ensures st.RunStore? && st.id in s.rts && answer.node == st.id
    ensures var rt := s.rts[st.id];
            && rt.storeQ != [] && rt.storeQ[0].ServeRead? && rt.storeQ[0].request == answer.request
            && answer.request in rt.gets
  {
    AnswerOfStore(s, st, s', answer);
  }

  /** The steps behind the read at the head of the store loop's queue. */
  lemma JourneyOf(ss: seq<Sys>, steps: seq<SysStep>, i: Id, l: nat) returns (v: Journey)
    requires SysRun(ss, steps) && l < |steps| && steps[l] == RunStore(i) && i in ss[l].rts
    requires ss[l].rts[i].storeQ != [] && ss[l].rts[i].storeQ[0].ServeRead?
    requires ss[l].rts[i].storeQ[0].request in ss[l].rts[i].gets
    ensures v.served == l && v.key == ss[l].rts[i].gets[ss[l].rts[i].storeQ[0].request]
    ensures Travels(ss, steps, i, ss[l].rts[i].storeQ[0].request, v)
    ensures Readied(ss, steps, i, ss[l].rts[i].storeQ[0], v.token, v.ready)
  {
    var rt := ss[l].rts[i];
    var t := rt.storeQ[0];
    AllTracked(ss, steps, i, l);
    assert TaskTracked(ss, steps, i, t, l) && GetTracked(steps, i, t.request, rt.gets[t.request], l);
    var token, j: nat, c: nat, f: nat :| f < l && ServedFrom(ss, steps, i, t, token, j, c, f);
    var g: nat :| AskedAt(steps, i, t.request, rt.gets[t.request], g, l);
    AskedBeforeCall(ss, steps, i, t.request, rt.gets[t.request], token, g, j, c);
    v := Journey(rt.gets[t.request], token, g, j, c, f, l);
  }

  lemma AskedBeforeCall(ss: seq<Sys>, steps: seq<SysStep>, i: Id, r: nat, key: string, token: ReadToken, g: nat,
                        j: nat, c: nat)
    requires SysRun(ss, steps) && Calls(ss, steps, i, r, token, j, c) && g < |steps|
    requires steps[g] == Get(i, r, key)
    ensures g < c
  {
    AllTracked(ss, steps, i, c);
    assert CallTracked(steps, i, ss[c].rts[i].raftQ[0], c);
    var key', g': nat :| AskedAt(steps, i, r, key', g', c);
    AskedOnce(ss, steps, i, r, key, key', g, g');
  }

  /** The applied index at which a round is found ready covers what was committed when it opened. */
  lemma FenceIsFresh(ss: seq<Sys>, steps: seq<SysStep>, i: Id, token: ReadToken, j: nat, f: nat, m: Id)
    requires CarefulSysRun(ss, steps) && f < |steps| && OpenSince(ss, steps, i, token, j, f)
    requires Up(ss[f].cluster, i) && ReadIndexReady(NodeAt(ss[f].cluster, i), token)
    ensures m in ss[j].cluster.slots && DiskAt(ss[j].cluster, m).Commit() <= NodeAt(ss[f].cluster, i).applied
  {
    var cs, ps := Clusters(ss), Projected(ss, steps);
    ProjectedRun(ss, steps);
    assert cs[j] == ss[j].cluster && cs[f] == ss[f].cluster && ps[j] == Complete(i, DoReadIndex);
    forall x | j <= x < f && x < |ps| && ps[x].id == i ensures ps[x].Complete? || ps[x].Idle? {
      assert ps[x] == Project(ss[x], steps[x]) && steps[x].id == i;
    }
    ReadFreshness(cs, ps, i, j, f, m);
  }

  /** Serving a read answers with the store, which has reached the read's fence. */
  lemma ServedValue(s: Sys, i: Id, s': Sys, answer: Answer, count: nat)
    requires MemberOk(s, Many(count), i) && NextSys(s, RunStore(i), s') && i in s.rts
    requires s.rts[i].storeQ[0].ServeRead? && s.rts[i].storeQ[0].request == answer.request
    requires answer.request in s.rts[i].gets
    requires s'.past.answers == s.past.answers + [answer]
    ensures s.rts[i].storeQ[0].fence <= s.rts[i].storeApplied
    ensures answer.reply == Value(ValueIn(s.rts[i].store, s.rts[i].gets[answer.request]))
  {
    var rt := s.rts[i];
    if Up(s.cluster, i) {
      StorePop(rt.storeQ, AppliesDue(rt), RestoresDue(rt), Expected(rt), Many(count));
    } else {
      assert TailTaskOk(rt.storeQ[0], rt, Many(count));
    }
    assert answer == s'.past.answers[|s.past.answers|];
  }

  // ---------- reads and writes in real time ----------

  /** A joined read is as fresh as its own call if the round's index covers everything that any
      node had committed at the call. */
  lemma JoinedReadIsFresh(ss: seq<Sys>, steps: seq<SysStep>, k: nat, a: nat) returns (chosen: Log, v: Journey)
    requires CarefulSysRun(ss, steps) && k < |ss| && a < |ss[k].past.answers| && ss[k].past.answers[a].reply.Value?
    ensures var answer := ss[k].past.answers[a];
            && IsMember(answer.node) && Travels(ss, steps, answer.node, answer.request, v)
            && Fresh(ss, chosen, answer.node, answer, v)
            && (CoversCommitted(ss[v.called].cluster, v.token.safeIndex) ==>
                  CoversCommitted(ss[v.called].cluster, ss[v.served].rts[answer.node].storeApplied))
  {
    chosen, v := ServedReadIsFresh(ss, steps, k, a);
    var x := ss[v.served].rts[ss[k].past.answers[a].node].storeApplied;
    if CoversCommitted(ss[v.called].cluster, v.token.safeIndex) {
      CoversMore(ss[v.called].cluster, v.token.safeIndex, x);
    }
  }

  lemma CoversMore(c: State, x: nat, y: nat)
    requires CoversCommitted(c, x) && x <= y
    ensures CoversCommitted(c, y)
  {
  }

  /** A read sees every write that was reported done before its round opened, or at an index within
      the round's; and if its own call found no round pending, every write reported done before the
      client asked. */
  lemma ReadSeesDoneWrites(ss: seq<Sys>, steps: seq<SysStep>, k: nat, a: nat, b: nat)
      returns (chosen: Log, v: Journey, w: nat)
    requires CarefulSysRun(ss, steps) && k < |ss| && a < |ss[k].past.answers| && b < |ss[k].past.answers|
    requires ss[k].past.answers[a].reply.Value? && ss[k].past.answers[b].reply.Done?
    ensures Gives(ss, v.served, a, ss[k].past.answers[a]) && Gives(ss, w, b, ss[k].past.answers[b])
    ensures var read, write := ss[k].past.answers[a], ss[k].past.answers[b];
            && IsMember(read.node) && Travels(ss, steps, read.node, read.request, v)
            && Fresh(ss, chosen, read.node, read, v)
            && AppliedAt(ss[w].past, chosen, AnswerKey(write), write.reply.index, write.reply.affected)
            && (|| w < v.opening || write.reply.index <= v.token.safeIndex
                || (w < v.asked && !NodeAt(ss[v.called].cluster, read.node).readPending) ==>
                  write.reply.index <= ss[v.served].rts[read.node].storeApplied)
  {
    chosen, v := ServedReadIsFresh(ss, steps, k, a);
    w := DoneIn(ss, steps, chosen, k, b);
    if w < v.opening {
      DoneIsCommittedLater(ss, steps, steps[w].id, w, v.opening);
      assert DiskAt(ss[v.opening].cluster, steps[w].id).Commit() <= ss[v.served].rts[steps[v.served].id].storeApplied;
    }
  }

  /** What a node has committed stays committed on its disk. */
  lemma DoneIsCommittedLater(ss: seq<Sys>, steps: seq<SysStep>, i: Id, w: nat, j: nat)
    requires SysRun(ss, steps) && w <= j < |ss| && Up(ss[w].cluster, i)
    ensures i in ss[j].cluster.slots && NodeAt(ss[w].cluster, i).commit <= DiskAt(ss[j].cluster, i).Commit()
  {
    var cs, ps := Clusters(ss), Projected(ss, steps);
    ProjectedRun(ss, steps);
    assert cs[w] == ss[w].cluster && cs[j] == ss[j].cluster;
    RestartSucceeds(cs, ps, w, i);
    DurableNeverGoesBack(cs, ps, w, j, i);
  }
}
