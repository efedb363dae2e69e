/** Three nodes, their write-ahead logs and the network, as a step system.

    A step runs one entry point of one node to completion, or crashes the node somewhere
    inside it, restarts a crashed node from its log, or idles.  The network only grows, and any
    message in it may be delivered to any node at any time: loss, duplication, delay,
    reordering and misdelivery are all runs of this system.

    Messages leave a node only after the entry point that queued them has returned with
    healthy storage, so a crash, or a flush that fails, leaves some prefix of the entry
    point's records on disk and sends nothing.
 */
module Cluster {
  import opened Proto
  import opened RaftNode
  import opened Replay

  /** `node` is `None` while the process is down. */
  datatype Slot = Slot(wal: seq<Record>, node: Option<Node>)

  datatype State = State(slots: map<Id, Slot>, net: set<Message>)

  datatype Step =
    | Complete(id: Id, action: Action)
    | CrashDuring(id: Id, action: Action, written: nat)
    | Restart(id: Id)
    | Idle(id: Id)

  ghost predicate WellFormed(c: State) {
    && (forall i: Id :: i in c.slots)
    && (forall i: Id :: c.slots[i].node.Some? ==> c.slots[i].node.value.id == i && c.slots[i].node.value.Valid())
  }

  ghost predicate Init(c: State) {
    && (forall i: Id :: i in c.slots && c.slots[i] == Slot([], Some(Fresh(i))))
    && c.net == {}
  }

  ghost predicate Up(c: State, i: Id) {
    i in c.slots && c.slots[i].node.Some?
  }

  ghost function NodeAt(c: State, i: Id): Node
    requires Up(c, i)
  {
    c.slots[i].node.value
  }

  /** What a restart of node `i` would read. */
  ghost function DiskAt(c: State, i: Id): Disk
    requires i in c.slots
  {
    Recover(c.slots[i].wal)
  }

  /** Messages come from the network; clients propose commands that the front end checked. */
  ghost predicate Enabled(c: State, i: Id, a: Action) {
    && Up(c, i) && NodeAt(c, i).Valid()
    && (a.DoReceive? ==> a.msg in c.net)
    && (a.DoPropose? && a.data.Some? ==> a.data.value.WellFormed())
  }

  ghost predicate Next(c: State, s: Step, c': State) {
    match s
    case Complete(i, a) =>
      && Enabled(c, i, a)
      && var e := Act(NodeAt(c, i), a);
         c' == State(c.slots[i := Slot(c.slots[i].wal + e.records, Some(e.node))],
                     c.net + set m | m in e.msgs)
    case CrashDuring(i, a, j) =>
      && Enabled(c, i, a)
      && var e := Act(NodeAt(c, i), a);
         && j <= |e.records|
         && c' == c.(slots := c.slots[i := Slot(c.slots[i].wal + e.records[..j], None)])
    case Restart(i) =>
      && i in c.slots && c.slots[i].node.None?
      && Restorable(Recover(c.slots[i].wal))
      && c' == c.(slots := c.slots[i := c.slots[i].(node := Some(Restore(i, Recover(c.slots[i].wal))))])
    case Idle(i) =>
      i in c.slots && c' == c
  }

  // ---------- the snapshot guard ----------

  /** The receiver's log goes beyond the snapshot and agrees with it there: installing it
      drops entries that the receiver may already have acknowledged. */
  predicate DropsSuffix(n: Node, m: Message)
    requires m.InstallSnapshot?
  {
    n.Last() > m.snapIndex && n.TermAt(m.snapIndex) == m.snapTerm
  }

  predicate Installs(n: Node, m: Message, restored: bool)
    requires m.InstallSnapshot?
  {
    && n.Accepts(m.from, m.to) && n.term <= m.term
    && m.snapIndex != 0 && m.snapTerm != 0 && m.snapTerm <= m.term && m.snapData.Some?
    && n.commit <= m.snapIndex && n.applied < m.snapIndex && restored
  }

  /** The step does not install a snapshot over such a suffix. */
  ghost predicate Careful(c: State, s: Step) {
    (s.Complete? || s.CrashDuring?) && s.action.DoReceive? && s.action.msg.InstallSnapshot? && Up(c, s.id) ==>
      !(Installs(NodeAt(c, s.id), s.action.msg, s.action.restored) && DropsSuffix(NodeAt(c, s.id), s.action.msg))
  }

  // ---------- runs ----------

  ghost predicate Run(states: seq<State>, steps: seq<Step>) {
    && |states| == |steps| + 1
    && Init(states[0])
    && (forall k :: 0 <= k < |steps| ==> Next(states[k], steps[k], states[k + 1]))
  }

  ghost predicate CarefulRun(states: seq<State>, steps: seq<Step>) {
    Run(states, steps) && forall k :: 0 <= k < |steps| ==> Careful(states[k], steps[k])
  }

  /** The process of node `i` stays up from state `j` to state `k`. */
  ghost predicate StaysUp(steps: seq<Step>, i: Id, j: nat, k: nat) {
    forall x :: j <= x < k && x < |steps| && steps[x].id == i ==> steps[x].Complete? || steps[x].Idle?
  }
}
