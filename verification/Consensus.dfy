/** The agreement argument, on durable state and history only.

    A `World` holds, for every member, what survives a crash (term, vote, whole
    log, commit index) and a `History` of what has happened so far.  The
    transitions are what one durable write, one acknowledgement, one election or
    one commit does; `Cluster` shows that every handler, crash and restart of the
    node code is made of them.
 */
module Consensus {
  import opened Proto

  // ---------- state ----------

  datatype Stable = Stable(term: nat, vote: nat, log: Log, commit: nat)

  /** A vote: who got it, and the voter's log when it was cast. */
  datatype Ballot = Ballot(cand: Id, log: Log)

  /** The leader of a term: elected by itself and `backer` with log `base`, now holding `log`. */
  datatype Leader = Leader(id: Id, backer: Id, base: Log, log: Log)

  datatype History = History(
    leaders: map<nat, Leader>,
    ballots: map<(Id, nat), Ballot>,
    acks: map<(Id, nat), nat>,        // longest prefix of the term's leader log a member acknowledged
    commits: set<(nat, nat)>,         // (term, index) pairs committed by the leader of that term
    chosen: Log)                      // the longest committed log so far

  datatype World = World(nodes: map<Id, Stable>, h: History)

  ghost function AckOf(h: History, n: Id, t: nat): nat {
    if (n, t) in h.acks then h.acks[(n, t)] else 0
  }

  ghost predicate UpToDate(candidate: Log, voter: Log) {
    if LastTerm(candidate) != LastTerm(voter) then LastTerm(candidate) > LastTerm(voter)
    else |candidate| >= |voter|
  }

  // ---------- invariant ----------

  /** The first `k + 1` entries of `log` are those of the leader that created entry `k`. */
  ghost predicate Rooted(h: History, log: Log, k: nat)
    requires k < |log|
  {
    && log[k].term in h.leaders
    && Agree(log, h.leaders[log[k].term].log, k + 1)
  }

  ghost predicate LogOk(h: History, log: Log) {
    forall k: nat {:trigger Rooted(h, log, k)} :: k < |log| ==> Rooted(h, log, k)
  }

  ghost predicate EntriesOk(log: Log, bound: nat) {
    forall k :: 0 <= k < |log| ==> log[k].term <= bound && log[k].index == k + 1 && log[k].Fits()
  }

  ghost predicate LeaderOk(h: History, t: nat)
    requires t in h.leaders
  {
    var l := h.leaders[t];
    && 1 <= t
    && l.id != l.backer
    && (l.id, t) in h.ballots && h.ballots[(l.id, t)] == Ballot(l.id, l.base)
    && (l.backer, t) in h.ballots && h.ballots[(l.backer, t)].cand == l.id
    && Agree(l.base, l.log, |l.base|)
    && LogOk(h, l.log)
    && EntriesOk(l.log, t)
    && (forall k :: |l.base| <= k < |l.log| ==> l.log[k].term == t)
  }

  ghost predicate LeadersOk(h: History) {
    forall t {:trigger LeaderOk(h, t)} :: t in h.leaders ==> LeaderOk(h, t)
  }

  ghost predicate BallotOk(h: History, s: Stable, n: Id, t: nat)
    requires (n, t) in h.ballots
  {
    var b := h.ballots[(n, t)];
    && 1 <= t <= s.term
    && (t == s.term ==> s.vote == b.cand)
    && LogOk(h, b.log)
    && (b.cand == n ==> forall k :: 0 <= k < |b.log| ==> b.log[k].term < t)
    && (b.cand, t) in h.ballots
    && h.ballots[(b.cand, t)].cand == b.cand
    && UpToDate(h.ballots[(b.cand, t)].log, b.log)
  }

  /** The leader of term `t2` took office without the first `j` entries of the leader of `t`. */
  ghost predicate Lacks(h: History, t2: nat, t: nat, j: nat)
    requires t in h.leaders
  {
    t2 in h.leaders && !Agree(h.leaders[t2].base, h.leaders[t].log, j)
  }

  /** The first `j` entries of the leader of term `t` are still in `log`, unless a leader
      between `t` and `bound` (exclusive) took office without them. */
  ghost predicate Kept(h: History, log: Log, bound: nat, t: nat, j: nat)
    requires t in h.leaders
  {
    || Agree(log, h.leaders[t].log, j)
    || exists t2 {:trigger Lacks(h, t2, t, j)} :: t < t2 < bound && Lacks(h, t2, t, j)
  }

  ghost predicate KeptUpTo(h: History, log: Log, bound: nat, t: nat, i: nat)
    requires t in h.leaders
  {
    forall j: nat {:trigger Kept(h, log, bound, t, j)} :: j <= i ==> Kept(h, log, bound, t, j)
  }

  ghost predicate AckOk(h: History, s: Stable, n: Id, t: nat)
    requires (n, t) in h.acks
  {
    && t in h.leaders
    && t <= s.term
    && h.acks[(n, t)] <= |h.leaders[t].log|
    && KeptUpTo(h, s.log, s.term + 1, t, h.acks[(n, t)])
  }

  /** Ballots that elected, or may still elect, the leader of their term. */
  ghost predicate Early(h: History, n: Id, t: nat) {
    t in h.leaders ==> n == h.leaders[t].id || n == h.leaders[t].backer
  }

  ghost predicate BallotKept(h: History, n: Id, t: nat, t0: nat) {
    (n, t) in h.ballots && (n, t0) in h.acks && t0 < t && Early(h, n, t) ==>
      && t0 in h.leaders
      && h.acks[(n, t0)] <= |h.leaders[t0].log|
      && KeptUpTo(h, h.ballots[(n, t)].log, t, t0, h.acks[(n, t0)])
  }

  ghost predicate Quorate(h: History, t: nat, i: nat) {
    exists a: Id, b: Id :: a != b && AckOf(h, a, t) >= i && AckOf(h, b, t) >= i
  }

  ghost predicate CommitOk(h: History, t: nat, i: nat) {
    && t in h.leaders
    && 1 <= i <= |h.leaders[t].log|
    && h.leaders[t].log[i - 1].term == t
    && Quorate(h, t, i)
    && Agree(h.leaders[t].log, h.chosen, i)
  }

  /** `log[..c]` was committed by a leader whose term is at most `bound`. */
  ghost predicate Settled(h: History, log: Log, c: nat, bound: nat) {
    c == 0 || exists t: nat, i: nat {:trigger SettledBy(h, log, c, t, i)} :: t <= bound && SettledBy(h, log, c, t, i)
  }

  ghost predicate SettledBy(h: History, log: Log, c: nat, t: nat, i: nat) {
    (t, i) in h.commits && c <= i && t in h.leaders && Agree(log, h.leaders[t].log, c)
  }

  ghost predicate HistoryInv(h: History) {
    && LeadersOk(h)
    && (forall n: Id, t: nat, t0: nat {:trigger BallotKept(h, n, t, t0)} :: BallotKept(h, n, t, t0))
    && (forall t, i {:trigger CommitOk(h, t, i)} :: (t, i) in h.commits ==> CommitOk(h, t, i))
    && (h.chosen != [] ==> exists t {:trigger CommitOk(h, t, |h.chosen|)} :: (t, |h.chosen|) in h.commits)
  }

  /** What the durable state of member `n` owes to the history. */
  ghost predicate NodeInv(h: History, s: Stable, n: Id) {
    && LogOk(h, s.log)
    && EntriesOk(s.log, s.term)
    && s.commit <= |s.log|
    && Settled(h, s.log, s.commit, s.term)
    && (s.vote != 0 ==> (n, s.term) in h.ballots)
    && (forall t {:trigger BallotOk(h, s, n, t)} :: (n, t) in h.ballots ==> BallotOk(h, s, n, t))
    && (forall t {:trigger AckOk(h, s, n, t)} :: (n, t) in h.acks ==> AckOk(h, s, n, t))
  }

  ghost predicate Inv(w: World) {
    && HistoryInv(w.h)
    && (forall n: Id :: n in w.nodes)
    && (forall n: Id {:trigger NodeInv(w.h, w.nodes[n], n)} :: NodeInv(w.h, w.nodes[n], n))
  }

  // ---------- leader completeness ----------

  lemma TermsAscend(h: History, log: Log, i: nat, k: nat)
    requires LeadersOk(h) && LogOk(h, log)
    requires i <= k < |log|
    ensures 1 <= log[i].term <= log[k].term
  {
    assert Rooted(h, log, i) && Rooted(h, log, k);
    assert LeaderOk(h, log[i].term) && LeaderOk(h, log[k].term);
  }

  /** Everything a quorum acknowledged in term `t`, up to an entry of that term, was in the
      log with which every later leader took office. */
  lemma {:induction false} LeaderCompleteness(w: World, t: nat, j: nat, t2: nat)
    requires Inv(w)
    requires t in w.h.leaders && 1 <= j <= |w.h.leaders[t].log| && w.h.leaders[t].log[j - 1].term == t
    requires Quorate(w.h, t, j)
    requires t < t2 && t2 in w.h.leaders
    ensures Agree(w.h.leaders[t2].base, w.h.leaders[t].log, j)
    decreases t2
  {
    var h := w.h;
    var lead := h.leaders[t2];
    assert LeaderOk(h, t2) && LeaderOk(h, t);
    var a: Id, b: Id :| a != b && AckOf(h, a, t) >= j && AckOf(h, b, t) >= j;
    var x: Id := if a == lead.id || a == lead.backer then a else b;
    var cast := h.ballots[(x, t2)].log;
    assert NodeInv(h, w.nodes[x], x) && BallotOk(h, w.nodes[x], x, t2);
    assert BallotKept(h, x, t2, t);
    assert Kept(h, cast, t2, t, j);
    if !Agree(cast, h.leaders[t].log, j) {
      var t3 :| t < t3 < t2 && Lacks(h, t3, t, j);
      LeaderCompleteness(w, t, j, t3);
      assert false;
    }
    UpToDateHolds(w, t, j, t2, cast);
  }

  /** The up-to-date test carries an agreed prefix from a voter to the elected candidate. */
  lemma {:induction false} UpToDateHolds(w: World, t: nat, j: nat, t2: nat, cast: Log)
    requires Inv(w)
    requires t in w.h.leaders && 1 <= j <= |w.h.leaders[t].log| && w.h.leaders[t].log[j - 1].term == t
    requires Quorate(w.h, t, j)
    requires t < t2 && t2 in w.h.leaders
    requires LogOk(w.h, cast) && Agree(cast, w.h.leaders[t].log, j)
    requires UpToDate(w.h.leaders[t2].base, cast)
    ensures Agree(w.h.leaders[t2].base, w.h.leaders[t].log, j)
    decreases t2, 0
  {
    var h := w.h;
    var lead := h.leaders[t2];
    var base := lead.base;
    assert LeaderOk(h, t2) && LeaderOk(h, t);
    TermsAscend(h, cast, j - 1, |cast| - 1);
    assert NodeInv(h, w.nodes[lead.id], lead.id) && BallotOk(h, w.nodes[lead.id], lead.id, t2);
    var c := LastTerm(base);
    assert Rooted(h, base, |base| - 1);
    if c == LastTerm(cast) {
      assert Rooted(h, cast, |cast| - 1);
    } else {
      LeaderCompleteness(w, t, j, c);
      assert LeaderOk(h, c);
      assert j <= |base|;
    }
  }

  /** What one leader committed is in the log of every leader of the same or a later term. */
  lemma CommitsNest(w: World, t: nat, i: nat, t2: nat)
    requires Inv(w)
    requires (t, i) in w.h.commits && t2 in w.h.leaders && t <= t2
    ensures t in w.h.leaders && Agree(w.h.leaders[t2].log, w.h.leaders[t].log, i)
  {
    assert CommitOk(w.h, t, i);
    if t < t2 {
      LeaderCompleteness(w, t, i, t2);
      assert LeaderOk(w.h, t2);
    }
  }

  /** A member's committed prefix is in the log of the leader of its own or any later term. */
  lemma SettledInLeader(w: World, log: Log, c: nat, bound: nat, t2: nat)
    requires Inv(w)
    requires Settled(w.h, log, c, bound) && bound <= t2 && t2 in w.h.leaders
    ensures c <= |log| ==> Agree(log, w.h.leaders[t2].log, c)
  {
    if 0 < c {
      var t: nat, i: nat :| t <= bound && SettledBy(w.h, log, c, t, i);
      CommitsNest(w, t, i, t2);
    }
  }

  /** Every committed prefix is a prefix of the chosen log. */
  lemma SettledIsChosen(w: World, log: Log, c: nat, bound: nat)
    requires Inv(w)
    requires Settled(w.h, log, c, bound) && c <= |log|
    ensures Agree(log, w.h.chosen, c)
  {
    if 0 < c {
      var t: nat, i: nat :| t <= bound && SettledBy(w.h, log, c, t, i);
      assert CommitOk(w.h, t, i);
    }
  }

  /** Two logs that agree on the term at one position agree up to it. */
  lemma LogMatching(h: History, a: Log, b: Log, k: nat)
    requires LogOk(h, a) && LogOk(h, b)
    requires k < |a| && k < |b| && a[k].term == b[k].term
    ensures Agree(a, b, k + 1)
  {
    assert Rooted(h, a, k) && Rooted(h, b, k);
  }
}
