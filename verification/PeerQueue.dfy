/** The bounded outbound queue to one peer.

    `posted` are the frames accepted by `Send` whose callback has not run yet, `outbound` the
    queue itself.  Ghost fields record all frames ever accepted, those written completely, and
    the frame handed to the socket.  A frame's `serial` is its position among the accepted
    frames; it is not part of the code.
 */
module PeerQueue {
  import opened Proto

  datatype Frame = Frame(serial: nat, size: nat, append: bool, from: nat, to: nat, term: nat, context: nat)

  const MAX_FRAMES: nat := 512
  const MAX_BYTES: nat := 64 * 1024 * 1024 + 5

  /** Two AppendEntries of one sender, receiver, term and read round. */
  predicate SameStream(a: Frame, b: Frame) {
    a.append && b.append && a.from == b.from && a.to == b.to && a.term == b.term && a.context == b.context
  }

  function Bytes(fs: seq<Frame>): nat {
    if |fs| == 0 then 0 else Bytes(fs[..|fs| - 1]) + fs[|fs| - 1].size
  }

  lemma {:induction false} BytesConcat(a: seq<Frame>, b: seq<Frame>)
    ensures Bytes(a + b) == Bytes(a) + Bytes(b)
  {
    if |b| == 0 {
      assert a + b == a;
    } else {
      BytesConcat(a, b[..|b| - 1]);
      assert (a + b)[..|a + b| - 1] == a + b[..|b| - 1];
    }
  }

  lemma BytesHead(fs: seq<Frame>)
    requires |fs| > 0
    ensures Bytes(fs) == fs[0].size + Bytes(fs[1..])
  {
    BytesConcat([fs[0]], fs[1..]);
    assert [fs[0]] + fs[1..] == fs && [fs[0]][..0] == [];
    assert Bytes([fs[0]]) == fs[0].size;
  }

  // ---------- what has become of the accepted frames ----------

  ghost predicate Genuine(accepted: seq<Frame>, f: Frame) {
    f.serial < |accepted| && accepted[f.serial] == f
  }

  /** The frame was replaced by the very next one, of the same stream. */
  ghost predicate Superseded(accepted: seq<Frame>, k: nat) {
    k + 1 < |accepted| && SameStream(accepted[k], accepted[k + 1])
  }

  ghost predicate Kept(kept: seq<Frame>, k: nat) {
    exists i {:trigger kept[i]} :: 0 <= i < |kept| && kept[i].serial == k
  }

  ghost predicate SerialAt(accepted: seq<Frame>, k: nat) {
    k < |accepted| ==> accepted[k].serial == k
  }

  ghost predicate KeptAt(accepted: seq<Frame>, kept: seq<Frame>, done: nat, i: nat) {
    i < |kept| ==> Genuine(accepted, kept[i]) && kept[i].serial < done
  }

  ghost predicate OrderedAt(kept: seq<Frame>, i: nat, j: nat) {
    i < j < |kept| ==> kept[i].serial < kept[j].serial
  }

  ghost predicate AccountedAt(accepted: seq<Frame>, kept: seq<Frame>, done: nat, k: nat) {
    k < done ==> Kept(kept, k) || (k + 1 < done && Superseded(accepted, k))
  }

  /** `kept` are frames among the first `done` accepted ones, in order; unless the peer is
      stopping, every other one of those has been superseded. */
  ghost predicate Tracked(accepted: seq<Frame>, kept: seq<Frame>, done: nat, stopping: bool) {
    && done <= |accepted|
    && (forall k: nat {:trigger SerialAt(accepted, k)} :: SerialAt(accepted, k))
    && (forall i: nat {:trigger KeptAt(accepted, kept, done, i)} :: KeptAt(accepted, kept, done, i))
    && (forall i: nat, j: nat {:trigger OrderedAt(kept, i, j)} :: OrderedAt(kept, i, j))
    && (!stopping ==> forall k: nat {:trigger AccountedAt(accepted, kept, done, k)} ::
                        AccountedAt(accepted, kept, done, k))
  }

  lemma TrackAccept(accepted: seq<Frame>, kept: seq<Frame>, done: nat, stopping: bool, f: Frame)
    requires Tracked(accepted, kept, done, stopping) && f.serial == |accepted|
    ensures Tracked(accepted + [f], kept, done, stopping)
  {
    var all := accepted + [f];
    forall k: nat ensures SerialAt(all, k) { assert SerialAt(accepted, k); }
    forall i: nat ensures KeptAt(all, kept, done, i) { assert KeptAt(accepted, kept, done, i); }
    if !stopping {
      forall k: nat ensures AccountedAt(all, kept, done, k) { assert AccountedAt(accepted, kept, done, k); }
    }
  }

  lemma TrackPush(accepted: seq<Frame>, kept: seq<Frame>, done: nat, f: Frame)
    requires Tracked(accepted, kept, done, false) && done < |accepted| && f == accepted[done]
    ensures Tracked(accepted, kept + [f], done + 1, false)
  {
    var more, next := kept + [f], done + 1;
    assert SerialAt(accepted, done);
    forall i: nat ensures KeptAt(accepted, more, next, i) { assert KeptAt(accepted, kept, done, i); }
    forall i: nat, j: nat ensures OrderedAt(more, i, j) {
      assert OrderedAt(kept, i, j) && KeptAt(accepted, kept, done, i);
    }
    forall k: nat ensures AccountedAt(accepted, more, next, k) {
      assert AccountedAt(accepted, kept, done, k);
      StillKept(kept, f, k);
    }
  }

  lemma StillKept(kept: seq<Frame>, f: Frame, k: nat)
    ensures Kept(kept, k) || f.serial == k ==> Kept(kept + [f], k)
  {
    var more := kept + [f];
    if Kept(kept, k) {
      var i :| 0 <= i < |kept| && kept[i].serial == k;
      assert more[i].serial == k;
    } else if f.serial == k {
      assert more[|kept|].serial == k;
    }
  }

  /** The last kept frame is the last one processed, and makes way for the next of its stream. */
  lemma TrackReplace(accepted: seq<Frame>, kept: seq<Frame>, done: nat, f: Frame)
    requires Tracked(accepted, kept, done, false) && done < |accepted| && f == accepted[done]
    requires |kept| > 0 && kept[|kept| - 1].serial + 1 == done && SameStream(kept[|kept| - 1], f)
    ensures Tracked(accepted, kept[..|kept| - 1] + [f], done + 1, false)
  {
    var front, last := kept[..|kept| - 1], |kept| - 1;
    var more, next := front + [f], done + 1;
    assert SerialAt(accepted, done) && KeptAt(accepted, kept, done, last);
    forall i: nat ensures KeptAt(accepted, more, next, i) { assert KeptAt(accepted, kept, done, i); }
    forall i: nat, j: nat ensures OrderedAt(more, i, j) {
      assert OrderedAt(kept, i, j) && KeptAt(accepted, kept, done, i);
    }
    forall k: nat ensures AccountedAt(accepted, more, next, k) {
      assert AccountedAt(accepted, kept, done, k);
      StillKept(front, f, k);
      if k + 1 < done && Kept(kept, k) {
        var i :| 0 <= i < |kept| && kept[i].serial == k;
        assert front[i].serial == k;
      }
    }
  }

  lemma TrackStop(accepted: seq<Frame>, kept: seq<Frame>, done: nat, stopping: bool, fewer: seq<Frame>, more: nat)
    requires Tracked(accepted, kept, done, stopping) && fewer <= kept && done <= more <= |accepted|
    ensures Tracked(accepted, fewer, more, true)
  {
    forall i: nat ensures KeptAt(accepted, fewer, more, i) { assert KeptAt(accepted, kept, done, i); }
    forall i: nat, j: nat ensures OrderedAt(fewer, i, j) { assert OrderedAt(kept, i, j); }
  }

  // ---------- the state of the queue ----------

  datatype Q = Q(outbound: seq<Frame>, posted: seq<Frame>, frames: nat, bytes: nat,
                 stopRequested: bool, stopped: bool, connected: bool, connecting: bool,
                 writing: bool, retryPending: bool)
  {
    predicate Stopping() {
      stopped || stopRequested
    }
  }

  /** All frames accepted, all frames written completely, and the frame given to the socket. */
  datatype Trace = Trace(accepted: seq<Frame>, written: seq<Frame>, wire: Option<Frame>)

  /** The counts are exactly what is posted or queued, within bounds. */
  ghost predicate Counted(q: Q) {
    && q.frames == |q.outbound| + |q.posted| <= MAX_FRAMES
    && q.bytes == Bytes(q.outbound) + Bytes(q.posted) <= MAX_BYTES
  }

  /** Position in `accepted` up to which callbacks have run. */
  ghost function Done(q: Q, t: Trace): nat
    requires |q.posted| <= |t.accepted|
  {
    |t.accepted| - |q.posted|
  }

  ghost predicate Is(t: Trace, u: Trace) {
    t == u
  }

  /** The invariant of the queue, wrapped so that a proof unfolds it only where it names `Is`. */
  ghost predicate Ok(q: Q, t: Trace) {
    forall u {:trigger Is(t, u)} :: Is(t, u) ==> Consistent(q, u)
  }

  ghost predicate Consistent(q: Q, t: Trace) {
    && Counted(q)
    && |q.posted| <= |t.accepted| && q.posted == t.accepted[Done(q, t)..]
    && Tracked(t.accepted, t.written + q.outbound, Done(q, t), q.Stopping())
    && (|q.outbound| > 0 && !q.Stopping() ==> q.outbound[|q.outbound| - 1].serial + 1 == Done(q, t))
    && (q.stopped ==> q.stopRequested && |q.outbound| == 0)
    && (q.writing ==> q.connected && |q.outbound| > 0 && t.wire == Some(q.outbound[0]))
    && (t.wire.Some? && !q.Stopping() ==> q.writing)
  }

  lemma Admission(q: Q, t: Trace)
    requires Ok(q, t)
    ensures q.frames <= MAX_FRAMES && q.bytes <= MAX_BYTES && |q.posted| <= |t.accepted|
  {
    assert Is(t, t);
  }

  /** The flags may change freely as long as a write is under way exactly while the socket holds
      the first frame. */
  lemma FlagsOk(q: Q, t: Trace, q': Q, t': Trace)
    requires Ok(q, t)
    requires q' == q.(connected := q'.connected, connecting := q'.connecting, writing := q'.writing,
                      retryPending := q'.retryPending)
    requires t' == t.(wire := t'.wire)
    requires q'.writing ==> q'.connected && |q.outbound| > 0 && t'.wire == Some(q.outbound[0])
    requires t'.wire.Some? && !q.Stopping() ==> q'.writing
    ensures Ok(q', t')
  {
    assert Is(t, t);
  }

  /** What a write under way means. */
  lemma WritingOk(q: Q, t: Trace)
    requires Ok(q, t)
    ensures q.writing ==> q.connected && |q.outbound| > 0 && t.wire == Some(q.outbound[0])
    ensures t.wire.Some? && !q.Stopping() ==> q.writing
  {
    assert Is(t, t);
  }

  lemma AcceptOk(q: Q, t: Trace, f: Frame)
    requires Ok(q, t) && f.serial == |t.accepted| && q.frames < MAX_FRAMES && q.bytes + f.size <= MAX_BYTES
    ensures Ok(q.(posted := q.posted + [f], frames := q.frames + 1, bytes := q.bytes + f.size),
               t.(accepted := t.accepted + [f]))
  {
    assert Is(t, t);
    TrackAccept(t.accepted, t.written + q.outbound, Done(q, t), q.Stopping(), f);
    assert (q.posted + [f])[..|q.posted|] == q.posted;
  }

  lemma HeadPosted(q: Q, t: Trace)
    requires Consistent(q, t) && |q.posted| > 0
    ensures q.posted[0] == t.accepted[Done(q, t)] && q.posted[1..] == t.accepted[Done(q, t) + 1..]
    ensures Bytes(q.posted) == q.posted[0].size + Bytes(q.posted[1..])
    ensures q.posted[0].serial == Done(q, t)
  {
    BytesHead(q.posted);
    assert SerialAt(t.accepted, Done(q, t));
  }

  lemma DiscardOk(q: Q, t: Trace)
    requires Ok(q, t) && |q.posted| > 0 && q.Stopping()
    ensures q.frames > 0 && q.bytes >= q.posted[0].size
    ensures Ok(q.(posted := q.posted[1..], frames := q.frames - 1, bytes := q.bytes - q.posted[0].size), t)
  {
    assert Is(t, t);
    HeadPosted(q, t);
    TrackStop(t.accepted, t.written + q.outbound, Done(q, t), true, t.written + q.outbound, Done(q, t) + 1);
  }

  lemma PushOk(q: Q, t: Trace)
    requires Ok(q, t) && |q.posted| > 0 && !q.Stopping()
    ensures Ok(q.(posted := q.posted[1..], outbound := q.outbound + [q.posted[0]]), t)
  {
    assert Is(t, t);
    var f := q.posted[0];
    HeadPosted(q, t);
    TrackPush(t.accepted, t.written + q.outbound, Done(q, t), f);
    assert t.written + q.outbound + [f] == t.written + (q.outbound + [f]);
    assert (q.outbound + [f])[..|q.outbound|] == q.outbound;
  }

  lemma ReplaceOk(q: Q, t: Trace)
    requires Ok(q, t) && |q.posted| > 0 && !q.Stopping() && |q.outbound| > 0
    requires SameStream(q.outbound[|q.outbound| - 1], q.posted[0]) && !(q.writing && |q.outbound| == 1)
    ensures var last := |q.outbound| - 1;
            && q.frames > 0 && q.bytes >= q.outbound[last].size
            && Ok(q.(posted := q.posted[1..], outbound := q.outbound[..last] + [q.posted[0]],
                     frames := q.frames - 1, bytes := q.bytes - q.outbound[last].size), t)
  {
    assert Is(t, t);
    var f, last := q.posted[0], |q.outbound| - 1;
    HeadPosted(q, t);
    var kept := t.written + q.outbound;
    TrackReplace(t.accepted, kept, Done(q, t), f);
    assert kept[..|kept| - 1] + [f] == t.written + (q.outbound[..last] + [f]);
    assert (q.outbound[..last] + [f])[..last] == q.outbound[..last];
  }

  lemma CompleteOk(q: Q, t: Trace)
    requires Ok(q, t) && q.writing && !q.Stopping() && |q.outbound| > 0
    ensures q.frames > 0 && q.bytes >= q.outbound[0].size
    ensures Ok(q.(writing := false, outbound := q.outbound[1..], frames := q.frames - 1,
                  bytes := q.bytes - q.outbound[0].size),
               t.(written := t.written + [q.outbound[0]], wire := None))
  {
    assert Is(t, t);
    BytesHead(q.outbound);
    assert t.written + q.outbound == t.written + [q.outbound[0]] + q.outbound[1..];
  }

  lemma StopRequestOk(q: Q, t: Trace)
    requires Ok(q, t)
    ensures Ok(q.(stopRequested := true), t)
  {
    assert Is(t, t);
    TrackStop(t.accepted, t.written + q.outbound, Done(q, t), q.Stopping(), t.written + q.outbound, Done(q, t));
  }

  lemma StopOk(q: Q, t: Trace)
    requires Ok(q, t) && q.stopRequested
    ensures Counted(q) && (q.stopped ==> |q.outbound| == 0 && Bytes(q.outbound) == 0)
    ensures Ok(Q(q.outbound[..0], q.posted, |q.posted|, Bytes(q.posted), true, true, false, false, false, false), t)
  {
    assert Is(t, t);
    TrackStop(t.accepted, t.written + q.outbound, Done(q, t), true, t.written, Done(q, t));
    assert t.written + q.outbound[..0] == t.written;
  }

  method Nothing() returns (fs: seq<Frame>)
    ensures |fs| == 0
  {
    fs := [];
  }

  class Queue {
    var q: Q
    ghost var t: Trace

    constructor ()
      ensures Ok(q, t) && |t.accepted| == |t.written| == 0 && !q.Stopping()
    {
      var none := Nothing();
      q := Q(none, none, 0, 0, false, false, false, false, false, false);
      t := Trace(none, none, None);
    }

    // ---------- admission ----------

    /** A stopping peer, a full queue or too many bytes refuse the frame and change nothing. */
    method Reserve(size: nat) returns (ok: bool)
      requires q.bytes <= MAX_BYTES
      modifies this`q
      ensures ok == (!q.stopRequested && old(q).frames < MAX_FRAMES && old(q).bytes + size <= MAX_BYTES)
      ensures q == if ok then old(q).(frames := old(q).frames + 1, bytes := old(q).bytes + size) else old(q)
    {
      if q.stopRequested || q.frames >= MAX_FRAMES || size > MAX_BYTES - q.bytes {
        return false;
      }
      q := q.(frames := q.frames + 1, bytes := q.bytes + size);
      return true;
    }

    /** Called only for a counted frame, so neither count can underflow. */
    method Release(size: nat)
      requires q.frames > 0 && q.bytes >= size
      modifies this`q
      ensures q == old(q).(frames := old(q).frames - 1, bytes := old(q).bytes - size)
    {
      q := q.(frames := q.frames - 1, bytes := q.bytes - size);
    }

    method Send(f: Frame) returns (ok: bool)
      requires Ok(q, t) && f.serial == |t.accepted|
      modifies this
      ensures Ok(q, t)
      ensures ok == (!q.stopRequested && old(q).frames < MAX_FRAMES && old(q).bytes + f.size <= MAX_BYTES)
      ensures t == if ok then old(t).(accepted := old(t).accepted + [f]) else old(t)
      ensures q.posted == (if ok then old(q).posted + [f] else old(q).posted) && q.outbound == old(q).outbound
    {
      Admission(q, t);
      ok := Reserve(f.size);
      if ok {
        Post(f, old(q));
      }
    }

    /** Posts the callback of a frame for which room was reserved in state `was`. */
    method Post(f: Frame, ghost was: Q)
      requires Ok(was, t) && f.serial == |t.accepted| && was.frames < MAX_FRAMES && was.bytes + f.size <= MAX_BYTES
      requires q == was.(frames := was.frames + 1, bytes := was.bytes + f.size)
      modifies this
      ensures Ok(q, t) && q == old(q).(posted := old(q).posted + [f])
      ensures t == old(t).(accepted := old(t).accepted + [f])
    {
      AcceptOk(was, t, f);
      q := q.(posted := q.posted + [f]);
      t := t.(accepted := t.accepted + [f]);
    }

    // ---------- callbacks ----------

    /** The callback of the oldest posted frame: drops it if the peer is stopping, replaces the
        last queued frame if that is an older one of the same stream and not being written,
        queues it otherwise.  Only a frame that is queued can start a connection. */
    method RunPosted()
      requires Ok(q, t) && |q.posted| > 0
      modifies this
      ensures Ok(q, t) && t.accepted == old(t).accepted && t.written == old(t).written
      ensures q.posted == old(q).posted[1..]
      ensures var f, was := old(q).posted[0], old(q).outbound;
              q.outbound ==
                if old(q).Stopping() then was
                else if |was| > 0 && SameStream(was[|was| - 1], f)
                    && !(old(q).writing && |was| == 1) then was[..|was| - 1] + [f]
                else was + [f]
      ensures |q.outbound| <= |old(q).outbound| ==> q.connecting == old(q).connecting
    {
      if q.Stopping() {
        Discard();
        return;
      }
      var f := q.posted[0];
      var backInFlight := q.writing && |q.outbound| == 1;
      if !backInFlight && f.append && |q.outbound| > 0 && SameStream(q.outbound[|q.outbound| - 1], f) {
        ReplaceBack();
        if q.connected {
          WriteNext();
        }
        return;
      }
      PushBack();
      if q.connected {
        WriteNext();
      } else {
        Connect();
      }
    }

    method Discard()
      requires Ok(q, t) && |q.posted| > 0 && q.Stopping()
      modifies this`q
      ensures Ok(q, t) && q.posted == old(q).posted[1..] && q.outbound == old(q).outbound
              && q.connecting == old(q).connecting
    {
      DiscardOk(q, t);
      var size := q.posted[0].size;
      q := q.(posted := q.posted[1..]);
      Release(size);
    }

    method ReplaceBack()
      requires Ok(q, t) && |q.posted| > 0 && !q.Stopping() && |q.outbound| > 0
      requires SameStream(q.outbound[|q.outbound| - 1], q.posted[0]) && !(q.writing && |q.outbound| == 1)
      modifies this`q
      ensures Ok(q, t) && q.posted == old(q).posted[1..] && q.connecting == old(q).connecting
      ensures q.outbound == old(q).outbound[..|old(q).outbound| - 1] + [old(q).posted[0]]
    {
      ReplaceOk(q, t);
      var f, replaced := q.posted[0], q.outbound[|q.outbound| - 1].size;
      q := q.(posted := q.posted[1..], outbound := q.outbound[..|q.outbound| - 1] + [f]);
      Release(replaced);
    }

    method PushBack()
      requires Ok(q, t) && |q.posted| > 0 && !q.Stopping()
      modifies this`q
      ensures Ok(q, t) && q.posted == old(q).posted[1..] && q.outbound == old(q).outbound + [old(q).posted[0]]
    {
      PushOk(q, t);
      var f := q.posted[0];
      q := q.(posted := q.posted[1..], outbound := q.outbound + [f]);
    }

    method Connect()
      requires Ok(q, t)
      modifies this`q
      ensures Ok(q, t) && q == old(q).(connecting := q.connecting)
    {
      if q.Stopping() || q.connected || q.connecting || q.retryPending || |q.outbound| == 0 {
        return;
      }
      WritingOk(q, t);
      FlagsOk(q, t, q.(connecting := true), t);
      q := q.(connecting := true);
    }

    /** Gives the first queued frame to the socket, unless a write is under way. */
    method WriteNext()
      requires Ok(q, t)
      modifies this
      ensures Ok(q, t) && q == old(q).(writing := q.writing) && t == old(t).(wire := t.wire)
      ensures old(q).writing ==> q == old(q) && t == old(t)
    {
      if q.Stopping() || !q.connected || q.writing || |q.outbound| == 0 {
        return;
      }
      FlagsOk(q, t, q.(writing := true), t.(wire := Some(q.outbound[0])));
      q := q.(writing := true);
      t := t.(wire := Some(q.outbound[0]));
    }

    method ConnectDone(ok: bool)
      requires Ok(q, t)
      modifies this
      ensures Ok(q, t) && q.outbound == old(q).outbound && q.posted == old(q).posted && t == old(t).(wire := t.wire)
    {
      WritingOk(q, t);
      FlagsOk(q, t, q.(connecting := false), t);
      q := q.(connecting := false);
      if q.Stopping() {
        return;
      }
      if !ok {
        MarkDisconnected();
        ScheduleRetry();
        return;
      }
      FlagsOk(q, t, q.(connected := true), t);
      q := q.(connected := true);
      WriteNext();
    }

    method MarkDisconnected()
      requires Ok(q, t)
      modifies this
      ensures Ok(q, t) && q == old(q).(connected := false, writing := false) && t == old(t).(wire := None)
    {
      FlagsOk(q, t, q.(connected := false, writing := false), t.(wire := None));
      q := q.(connected := false, writing := false);
      t := t.(wire := None);
    }

    method ScheduleRetry()
      requires Ok(q, t)
      modifies this`q
      ensures Ok(q, t) && q == old(q).(retryPending := q.retryPending)
    {
      if q.Stopping() || |q.outbound| == 0 || q.retryPending {
        return;
      }
      WritingOk(q, t);
      FlagsOk(q, t, q.(retryPending := true), t);
      q := q.(retryPending := true);
    }

    method RetryFired(cancelled: bool)
      requires Ok(q, t)
      modifies this`q
      ensures Ok(q, t) && q == old(q).(retryPending := false, connecting := q.connecting)
    {
      WritingOk(q, t);
      FlagsOk(q, t, q.(retryPending := false), t);
      q := q.(retryPending := false);
      if !cancelled && !q.Stopping() {
        Connect();
      }
    }

    /** The socket reports the end of a write.  Only a success completes a frame, and it is the
        frame that was given to the socket. */
    method WriteDone(ok: bool)
      requires Ok(q, t) && t.wire.Some?
      modifies this
      ensures Ok(q, t) && t.accepted == old(t).accepted && q.posted == old(q).posted
      ensures if ok && !old(q).Stopping() then
                t.written == old(t).written + [old(t).wire.value] && old(q).outbound == [old(t).wire.value] + q.outbound
              else t.written == old(t).written && q.outbound == old(q).outbound
    {
      WritingOk(q, t);
      if q.Stopping() {
        FlagsOk(q, t, q.(writing := false), t.(wire := None));
        q := q.(writing := false);
        t := t.(wire := None);
        return;
      }
      if !ok {
        MarkDisconnected();
        ScheduleRetry();
        return;
      }
      CompleteOk(q, t);
      var f := q.outbound[0];
      t := t.(written := t.written + [f], wire := None);
      q := q.(writing := false, outbound := q.outbound[1..]);
      Release(f.size);
      WriteNext();
    }

    // ---------- stopping ----------

    method RequestStop()
      requires Ok(q, t)
      modifies this`q
      ensures Ok(q, t) && q == old(q).(stopRequested := true)
    {
      StopRequestOk(q, t);
      q := q.(stopRequested := true);
    }

    /** Releases every queued frame. */
    method StopNow()
      requires Ok(q, t) && q.stopRequested
      modifies this`q
      ensures Ok(q, t) && q.stopped && |q.outbound| == 0 && q.posted == old(q).posted
      ensures q.frames == |q.posted| && q.bytes == Bytes(q.posted)
    {
      StopOk(q, t);
      if q.stopped {
        return;
      }
      var was := q.outbound;
      q := q.(stopped := true, connected := false, connecting := false, writing := false, retryPending := false);
      ghost var start := q;
      for i := 0 to |was|
        invariant q == start.(frames := |was| - i + |start.posted|, bytes := Bytes(was[i..]) + Bytes(start.posted))
      {
        BytesHead(was[i..]);
        assert was[i..][1..] == was[i + 1..];
        Release(was[i].size);
      }
      q := q.(outbound := was[..0]);
    }
  }

  // ---------- what follows for completed writes ----------

  /** Completed writes are accepted frames in the order of acceptance. */
  lemma CompletedInOrder(q: Q, t: Trace, i: nat, j: nat)
    requires Ok(q, t) && i < j < |t.written|
    ensures Genuine(t.accepted, t.written[i]) && Genuine(t.accepted, t.written[j])
    ensures t.written[i].serial < t.written[j].serial
  {
    assert Is(t, t);
    var kept := t.written + q.outbound;
    assert KeptAt(t.accepted, kept, Done(q, t), i) && KeptAt(t.accepted, kept, Done(q, t), j) && OrderedAt(kept, i, j);
  }

  /** While the peer is not stopping, every accepted frame is written, still on its way, or was an
      AppendEntries that the next accepted frame replaced. */
  lemma NothingElseDropped(q: Q, t: Trace, k: nat)
    requires Ok(q, t) && !q.Stopping() && k < |t.accepted|
    ensures || t.accepted[k] in t.written || t.accepted[k] in q.outbound || t.accepted[k] in q.posted
            || (k + 1 < |t.accepted| && SameStream(t.accepted[k], t.accepted[k + 1]))
  {
    assert Is(t, t);
    var kept, done := t.written + q.outbound, Done(q, t);
    assert AccountedAt(t.accepted, kept, done, k);
    if k >= done {
      assert q.posted[k - done] == t.accepted[k];
    } else if Kept(kept, k) {
      var i :| 0 <= i < |kept| && kept[i].serial == k;
      assert KeptAt(t.accepted, kept, done, i);
      assert kept[i] in kept;
    }
  }

  /** A peer that has stopped and run its remaining callbacks counts nothing. */
  lemma StoppedCountsNothing(q: Q, t: Trace)
    requires Ok(q, t) && q.stopped && |q.posted| == 0
    ensures q.frames == 0 && q.bytes == 0
  {
    assert Is(t, t);
  }
}
