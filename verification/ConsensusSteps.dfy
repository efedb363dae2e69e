/** The transitions of `Consensus`, each with the proof that it keeps the invariant. */
module ConsensusSteps {
  import opened Proto
  import opened Consensus

  // ---------- histories only grow ----------

  ghost predicate LeaderGrows(h: History, g: History, t: nat)
    requires t in h.leaders
  {
    && t in g.leaders
    && g.leaders[t].id == h.leaders[t].id
    && g.leaders[t].backer == h.leaders[t].backer
    && g.leaders[t].base == h.leaders[t].base
    && Agree(h.leaders[t].log, g.leaders[t].log, |h.leaders[t].log|)
  }

  ghost predicate Grows(h: History, g: History) {
    && (forall t {:trigger LeaderGrows(h, g, t)} :: t in h.leaders ==> LeaderGrows(h, g, t))
    && (forall n: Id, t :: (n, t) in h.ballots ==> (n, t) in g.ballots && g.ballots[(n, t)] == h.ballots[(n, t)])
    && (forall n: Id, t :: (n, t) in h.acks ==> (n, t) in g.acks && h.acks[(n, t)] <= g.acks[(n, t)])
    && h.commits <= g.commits
    && Agree(h.chosen, g.chosen, |h.chosen|)
  }

  lemma GrowsTrans(h: History, g: History, f: History)
    requires Grows(h, g) && Grows(g, f)
    ensures Grows(h, f)
  {
    forall t | t in h.leaders ensures LeaderGrows(h, f, t) {
      assert LeaderGrows(h, g, t) && LeaderGrows(g, f, t);
    }
  }

  lemma LogOkGrows(h: History, g: History, log: Log)
    requires LogOk(h, log) && Grows(h, g)
    ensures LogOk(g, log)
  {
    forall k: nat | k < |log| ensures Rooted(g, log, k) {
      assert Rooted(h, log, k) && LeaderGrows(h, g, log[k].term);
    }
  }

  lemma KeptGrows(h: History, g: History, log: Log, bound: nat, bound': nat, t: nat, i: nat)
    requires Grows(h, g) && t in h.leaders && i <= |h.leaders[t].log| && bound <= bound'
    requires KeptUpTo(h, log, bound, t, i)
    ensures t in g.leaders && KeptUpTo(g, log, bound', t, i)
  {
    assert LeaderGrows(h, g, t);
    forall j: nat | j <= i ensures Kept(g, log, bound', t, j) {
      assert Kept(h, log, bound, t, j);
      if !Agree(log, h.leaders[t].log, j) {
        var t2 :| t < t2 < bound && Lacks(h, t2, t, j);
        assert LeaderGrows(h, g, t2);
        assert Lacks(g, t2, t, j);
      }
    }
  }

  lemma SettledGrows(h: History, g: History, log: Log, log': Log, c: nat, bound: nat, bound': nat)
    requires Settled(h, log, c, bound) && Grows(h, g) && bound <= bound'
    requires c <= |log| && Agree(log, log', c)
    ensures Settled(g, log', c, bound')
  {
    if 0 < c {
      var t: nat, i: nat :| t <= bound && SettledBy(h, log, c, t, i);
      assert LeaderGrows(h, g, t);
      assert SettledBy(g, log', c, t, i);
    }
  }

  lemma QuorateGrows(h: History, g: History, t: nat, i: nat)
    requires Quorate(h, t, i) && Grows(h, g)
    ensures Quorate(g, t, i)
  {
    var a: Id, b: Id :| a != b && AckOf(h, a, t) >= i && AckOf(h, b, t) >= i;
    assert AckOf(g, a, t) >= i && AckOf(g, b, t) >= i;
  }

  /** A member that took no part in a transition keeps its invariant. */
  lemma NodeInvGrows(h: History, g: History, s: Stable, n: Id)
    requires NodeInv(h, s, n) && Grows(h, g)
    requires forall t :: (n, t) in g.ballots ==> (n, t) in h.ballots
    requires forall t :: (n, t) in g.acks ==> (n, t) in h.acks && g.acks[(n, t)] == h.acks[(n, t)]
    ensures NodeInv(g, s, n)
  {
    LogOkGrows(h, g, s.log);
    SettledGrows(h, g, s.log, s.log, s.commit, s.term, s.term);
    forall t | (n, t) in g.ballots ensures BallotOk(g, s, n, t) {
      assert BallotOk(h, s, n, t);
      LogOkGrows(h, g, h.ballots[(n, t)].log);
    }
    forall t | (n, t) in g.acks ensures AckOk(g, s, n, t) {
      assert AckOk(h, s, n, t) && LeaderGrows(h, g, t);
      KeptGrows(h, g, s.log, s.term + 1, s.term + 1, t, h.acks[(n, t)]);
    }
  }

  lemma LeaderOkGrows(h: History, g: History, t: nat)
    requires Grows(h, g) && t in h.leaders && t in g.leaders && g.leaders[t] == h.leaders[t] && LeaderOk(h, t)
    ensures LeaderOk(g, t)
  {
    LogOkGrows(h, g, h.leaders[t].log);
  }

  /** A ballot cast and acknowledgements given earlier stay retained. */
  ghost predicate SameBallot(h: History, g: History, n: Id, t: nat, t0: nat) {
    (n, t) in h.ballots && (n, t0) in h.acks && (n, t0) in g.acks && g.acks[(n, t0)] == h.acks[(n, t0)]
  }

  lemma BallotKeptGrows(h: History, g: History, n: Id, t: nat, t0: nat)
    requires Grows(h, g) && BallotKept(h, n, t, t0) && SameBallot(h, g, n, t, t0)
    ensures BallotKept(g, n, t, t0)
  {
    if t0 < t && Early(g, n, t) {
      if t in h.leaders { assert LeaderGrows(h, g, t); }
      assert LeaderGrows(h, g, t0);
      KeptGrows(h, g, h.ballots[(n, t)].log, t, t, t0, h.acks[(n, t0)]);
    }
  }

  /** What is left to show about the history when a transition commits nothing. */
  lemma HistoryInvGrows(h: History, g: History)
    requires HistoryInv(h) && Grows(h, g) && LeadersOk(g)
    requires g.commits == h.commits && g.chosen == h.chosen
    requires forall n: Id, t: nat, t0: nat {:trigger BallotKept(g, n, t, t0)} ::
               SameBallot(h, g, n, t, t0) || BallotKept(g, n, t, t0)
    ensures HistoryInv(g)
  {
    forall t, i | (t, i) in g.commits ensures CommitOk(g, t, i) {
      assert CommitOk(h, t, i) && LeaderGrows(h, g, t);
      QuorateGrows(h, g, t, i);
    }
    forall n: Id, t: nat, t0: nat ensures BallotKept(g, n, t, t0) {
      if SameBallot(h, g, n, t, t0) {
        assert BallotKept(h, n, t, t0);
        BallotKeptGrows(h, g, n, t, t0);
      }
    }
    if g.chosen != [] {
      var t: nat :| (t, |h.chosen|) in h.commits;
      assert CommitOk(g, t, |g.chosen|);
    }
  }

  ghost function Put(w: World, n: Id, s: Stable): World {
    w.(nodes := w.nodes[n := s])
  }

  lemma PutInv(w: World, n: Id, s: Stable)
    requires Inv(w) && NodeInv(w.h, s, n)
    ensures Inv(Put(w, n, s))
  {
    forall m: Id ensures NodeInv(w.h, Put(w, n, s).nodes[m], m) {
      assert NodeInv(w.h, w.nodes[m], m);
    }
  }

  // ---------- transitions that leave the history alone ----------

  /** A member moves to a later term. */
  lemma Bump(w: World, n: Id, t: nat)
    requires Inv(w) && w.nodes[n].term < t
    ensures Inv(Put(w, n, w.nodes[n].(term := t, vote := 0)))
  {
    var h, s := w.h, w.nodes[n];
    var s' := s.(term := t, vote := 0);
    assert NodeInv(h, s, n);
    SettledGrows(h, h, s.log, s.log, s.commit, s.term, t);
    forall u | (n, u) in h.ballots ensures BallotOk(h, s', n, u) {
      assert BallotOk(h, s, n, u);
    }
    forall u | (n, u) in h.acks ensures AckOk(h, s', n, u) {
      assert AckOk(h, s, n, u);
      KeptGrows(h, h, s.log, s.term + 1, t + 1, u, h.acks[(n, u)]);
    }
    PutInv(w, n, s');
  }

  /** A member learns that a longer prefix of its log is committed. */
  lemma Learn(w: World, n: Id, c: nat)
    requires Inv(w) && w.nodes[n].commit <= c <= |w.nodes[n].log|
    requires Settled(w.h, w.nodes[n].log, c, w.nodes[n].term)
    ensures Inv(Put(w, n, w.nodes[n].(commit := c)))
  {
    var h, s := w.h, w.nodes[n];
    var s' := s.(commit := c);
    assert NodeInv(h, s, n);
    forall u | (n, u) in h.ballots ensures BallotOk(h, s', n, u) {
      assert BallotOk(h, s, n, u);
    }
    forall u | (n, u) in h.acks ensures AckOk(h, s', n, u) {
      assert AckOk(h, s, n, u);
    }
    PutInv(w, n, s');
  }

  /** A member replaces its log by the first `k` entries of its term's leader, having shared
      no more than `k` entries with that leader before. */
  lemma Overwrite(w: World, n: Id, k: nat)
    requires Inv(w) && w.nodes[n].term in w.h.leaders
    requires w.nodes[n].commit <= k <= |w.h.leaders[w.nodes[n].term].log|
    requires !Agree(w.nodes[n].log, w.h.leaders[w.nodes[n].term].log, k + 1)
    ensures Inv(Put(w, n, w.nodes[n].(log := w.h.leaders[w.nodes[n].term].log[..k])))
  {
    var h, s := w.h, w.nodes[n];
    var lead := h.leaders[s.term].log;
    var log' := lead[..k];
    var s' := s.(log := log');
    assert NodeInv(h, s, n) && LeaderOk(h, s.term);
    SettledInLeader(w, s.log, s.commit, s.term, s.term);
    SettledGrows(h, h, s.log, log', s.commit, s.term, s.term);
    forall i: nat | i < |log'| ensures Rooted(h, log', i) {
      assert Rooted(h, lead, i);
    }
    forall u | (n, u) in h.ballots ensures BallotOk(h, s', n, u) {
      assert BallotOk(h, s, n, u);
    }
    forall u | (n, u) in h.acks ensures AckOk(h, s', n, u) {
      assert AckOk(h, s, n, u);
      var acked, bound := h.acks[(n, u)], s.term + 1;
      forall j: nat | j <= acked ensures Kept(h, log', bound, u, j) {
        assert Kept(h, s.log, s.term + 1, u, j);
        if Agree(s.log, h.leaders[u].log, j) && !Agree(log', h.leaders[u].log, j) {
          assert Lacks(h, s.term, u, j);
        }
      }
    }
    PutInv(w, n, s');
  }

  // ---------- elections ----------

  /** A member starts a term of its own and votes for itself. */
  lemma Candidacy(w: World, n: Id) returns (g: History)
    requires Inv(w)
    ensures g == w.h.(ballots := w.h.ballots[(n, w.nodes[n].term + 1) := Ballot(n, w.nodes[n].log)])
    ensures (n, w.nodes[n].term + 1) !in w.h.ballots
    ensures Grows(w.h, g)
    ensures Inv(Put(World(w.nodes, g), n, w.nodes[n].(term := w.nodes[n].term + 1, vote := n)))
  {
    var h, s := w.h, w.nodes[n];
    var t := s.term + 1;
    assert NodeInv(h, s, n);
    assert (n, t) in h.ballots ==> BallotOk(h, s, n, t);
    var moved := Put(w, n, s.(term := t, vote := 0));
    Bump(w, n, t);
    g := CastInv(w, moved, n, n);
    assert moved.nodes[n := s.(term := t, vote := n)] == w.nodes[n := s.(term := t, vote := n)];
  }

  /** A member that has not voted in its term votes for a candidate whose log is up to date. */
  lemma Vote(w: World, n: Id, c: Id) returns (g: History)
    requires Inv(w) && w.nodes[n].vote == 0 && c != n
    requires (c, w.nodes[n].term) in w.h.ballots && w.h.ballots[(c, w.nodes[n].term)].cand == c
    requires UpToDate(w.h.ballots[(c, w.nodes[n].term)].log, w.nodes[n].log)
    ensures g == w.h.(ballots := w.h.ballots[(n, w.nodes[n].term) := Ballot(c, w.nodes[n].log)])
    ensures (n, w.nodes[n].term) !in w.h.ballots
    ensures Grows(w.h, g)
    ensures Inv(Put(World(w.nodes, g), n, w.nodes[n].(vote := c)))
  {
    var h, s := w.h, w.nodes[n];
    assert NodeInv(h, s, n);
    assert (n, s.term) in h.ballots ==> BallotOk(h, s, n, s.term);
    assert NodeInv(h, w.nodes[c], c) && BallotOk(h, w.nodes[c], c, s.term);
    g := CastInv(w, w, n, c);
  }

  /** Recording a first ballot of the current term, for oneself on entering the term or for
      a candidate that is up to date. */
  lemma CastInv(w0: World, w: World, n: Id, c: Id) returns (g: History)
    requires Inv(w0) && Inv(w) && w0.h == w.h && w.nodes == w0.nodes[n := w.nodes[n]]
    requires w0.nodes[n].log == w.nodes[n].log
    requires w.nodes[n].vote == 0 && (n, w.nodes[n].term) !in w.h.ballots
    requires 1 <= w.nodes[n].term
    requires if c == n then w.nodes[n].term == w0.nodes[n].term + 1 else w0 == w
    requires c != n ==>
      && (c, w.nodes[n].term) in w.h.ballots && w.h.ballots[(c, w.nodes[n].term)].cand == c
      && UpToDate(w.h.ballots[(c, w.nodes[n].term)].log, w.nodes[n].log)
    ensures g == w.h.(ballots := w.h.ballots[(n, w.nodes[n].term) := Ballot(c, w.nodes[n].log)])
    ensures Grows(w.h, g)
    ensures Inv(Put(World(w.nodes, g), n, w.nodes[n].(vote := c)))
  {
    var h, s := w.h, w.nodes[n];
    var t := s.term;
    g := h.(ballots := h.ballots[(n, t) := Ballot(c, s.log)]);
    var s' := s.(vote := c);
    var w' := Put(World(w.nodes, g), n, s');
    assert NodeInv(h, s, n) && NodeInv(h, w0.nodes[n], n);
    forall u | u in h.leaders ensures LeaderGrows(h, g, u) { }
    assert Grows(h, g);
    forall u | u in g.leaders ensures LeaderOk(g, u) {
      assert LeaderOk(h, u);
      LeaderOkGrows(h, g, u);
    }
    forall m: Id, u: nat, t0: nat ensures SameBallot(h, g, m, u, t0) || BallotKept(g, m, u, t0) {
      if m == n && u == t && (n, t0) in h.acks && t0 < t && Early(g, n, t) {
        CastKeeps(w0, w, g, n, c, t0);
      }
    }
    HistoryInvGrows(h, g);
    forall m: Id ensures NodeInv(g, w'.nodes[m], m) {
      assert NodeInv(h, w.nodes[m], m);
      if m != n {
        NodeInvGrows(h, g, w.nodes[m], m);
      } else {
        CasterInv(h, g, s, w0.nodes[n], n, c);
      }
    }
  }

  /** The ballot's log keeps what its caster had acknowledged in an earlier term. */
  lemma CastKeeps(w0: World, w: World, g: History, n: Id, c: Id, t0: nat)
    requires Inv(w0) && Inv(w) && w0.h == w.h && w.nodes == w0.nodes[n := w.nodes[n]]
    requires w0.nodes[n].log == w.nodes[n].log
    requires if c == n then w.nodes[n].term == w0.nodes[n].term + 1 else w0 == w
    requires (n, w.nodes[n].term) !in w.h.ballots
    requires c != n ==> (c, w.nodes[n].term) in w.h.ballots && w.h.ballots[(c, w.nodes[n].term)].cand == c
    requires g == w.h.(ballots := w.h.ballots[(n, w.nodes[n].term) := Ballot(c, w.nodes[n].log)]) && Grows(w.h, g)
    requires (n, t0) in w.h.acks && t0 < w.nodes[n].term && Early(g, n, w.nodes[n].term)
    ensures BallotKept(g, n, w.nodes[n].term, t0)
  {
    var h, s := w.h, w.nodes[n];
    var t := s.term;
    assert NodeInv(h, s, n) && NodeInv(h, w0.nodes[n], n);
    assert AckOk(h, s, n, t0) && AckOk(h, w0.nodes[n], n, t0);
    assert t in h.leaders ==> LeaderOk(h, t);
    if c != n {
      NotYetLed(h, s.log, t, t0, h.acks[(n, t0)]);
    }
    KeptGrows(h, g, s.log, t, t, t0, h.acks[(n, t0)]);
  }

  /** Without a leader in term `t`, nothing was overwritten in term `t` either. */
  lemma NotYetLed(h: History, log: Log, t: nat, t0: nat, i: nat)
    requires t !in h.leaders && t0 in h.leaders
    requires KeptUpTo(h, log, t + 1, t0, i)
    ensures KeptUpTo(h, log, t, t0, i)
  {
    forall j: nat | j <= i ensures Kept(h, log, t, t0, j) {
      assert Kept(h, log, t + 1, t0, j);
      if !Agree(log, h.leaders[t0].log, j) {
        var t2 :| t0 < t2 < t + 1 && Lacks(h, t2, t0, j);
        assert t2 < t;
      }
    }
  }

  lemma CasterInv(h: History, g: History, s: Stable, s0: Stable, n: Id, c: Id)
    requires NodeInv(h, s, n) && NodeInv(h, s0, n) && s0.log == s.log
    requires s.vote == 0 && (n, s.term) !in h.ballots && 1 <= s.term
    requires g == h.(ballots := h.ballots[(n, s.term) := Ballot(c, s.log)]) && Grows(h, g)
    requires c == n ==> s.term == s0.term + 1
    requires c != n ==>
      && (c, s.term) in h.ballots && h.ballots[(c, s.term)].cand == c
      && UpToDate(h.ballots[(c, s.term)].log, s.log)
    ensures NodeInv(g, s.(vote := c), n)
  {
    var s' := s.(vote := c);
    LogOkGrows(h, g, s.log);
    SettledGrows(h, g, s.log, s.log, s.commit, s.term, s.term);
    forall u | (n, u) in g.ballots ensures BallotOk(g, s', n, u) {
      if u != s.term {
        assert BallotOk(h, s, n, u);
        LogOkGrows(h, g, h.ballots[(n, u)].log);
      }
    }
    forall u | (n, u) in g.acks ensures AckOk(g, s', n, u) {
      assert AckOk(h, s, n, u) && LeaderGrows(h, g, u);
      KeptGrows(h, g, s.log, s.term + 1, s.term + 1, u, h.acks[(n, u)]);
    }
  }

  /** A candidate backed by a second member takes office in a term without a leader. */
  lemma Elect(w: World, c: Id, v: Id, t: nat) returns (g: History)
    requires Inv(w) && c != v && t !in w.h.leaders
    requires (c, t) in w.h.ballots && (v, t) in w.h.ballots
    requires w.h.ballots[(c, t)].cand == c && w.h.ballots[(v, t)].cand == c
    ensures g == w.h.(leaders := w.h.leaders[t := Leader(c, v, w.h.ballots[(c, t)].log, w.h.ballots[(c, t)].log)])
    ensures Grows(w.h, g)
    ensures Inv(World(w.nodes, g))
  {
    var h := w.h;
    var base := h.ballots[(c, t)].log;
    g := h.(leaders := h.leaders[t := Leader(c, v, base, base)]);
    assert NodeInv(h, w.nodes[c], c) && BallotOk(h, w.nodes[c], c, t);
    forall u | u in h.leaders ensures LeaderGrows(h, g, u) { }
    assert Grows(h, g);
    forall u | u in g.leaders ensures LeaderOk(g, u) {
      if u == t {
        LogOkGrows(h, g, base);
        forall k | 0 <= k < |base| ensures base[k].term <= t && base[k].index == k + 1 && base[k].Fits() {
          assert Rooted(h, base, k) && LeaderOk(h, base[k].term);
        }
      } else {
        assert LeaderOk(h, u);
        LeaderOkGrows(h, g, u);
      }
    }
    forall m: Id, u: nat, t0: nat ensures SameBallot(h, g, m, u, t0) || BallotKept(g, m, u, t0) { }
    HistoryInvGrows(h, g);
    forall m: Id ensures NodeInv(g, w.nodes[m], m) {
      assert NodeInv(h, w.nodes[m], m);
      NodeInvGrows(h, g, w.nodes[m], m);
    }
  }

  // ---------- replication ----------

  /** The leader of the current term adds an entry to its log. */
  lemma Extend(w: World, n: Id, e: Entry) returns (g: History)
    requires Inv(w)
    requires w.nodes[n].term in w.h.leaders && w.h.leaders[w.nodes[n].term].id == n
    requires w.h.leaders[w.nodes[n].term].log == w.nodes[n].log
    requires e.term == w.nodes[n].term && e.index == |w.nodes[n].log| + 1 && e.Fits()
    ensures g == w.h.(leaders := w.h.leaders[w.nodes[n].term :=
                        w.h.leaders[w.nodes[n].term].(log := w.nodes[n].log + [e])])
    ensures Grows(w.h, g)
    ensures Inv(Put(World(w.nodes, g), n, w.nodes[n].(log := w.nodes[n].log + [e])))
  {
    var h, s := w.h, w.nodes[n];
    g := h.(leaders := h.leaders[s.term := h.leaders[s.term].(log := s.log + [e])]);
    var w' := Put(World(w.nodes, g), n, s.(log := s.log + [e]));
    ExtendLeaders(w, n, e, g);
    forall m: Id, u: nat, t0: nat ensures SameBallot(h, g, m, u, t0) || BallotKept(g, m, u, t0) { }
    HistoryInvGrows(h, g);
    forall m: Id ensures NodeInv(g, w'.nodes[m], m) {
      assert NodeInv(h, w.nodes[m], m);
      NodeInvGrows(h, g, w.nodes[m], m);
      if m == n { ExtenderInv(g, s, n, e); }
    }
  }

  /** The leaders' logs, one of them longer by the new entry. */
  lemma ExtendLeaders(w: World, n: Id, e: Entry, g: History)
    requires Inv(w)
    requires w.nodes[n].term in w.h.leaders && w.h.leaders[w.nodes[n].term].id == n
    requires w.h.leaders[w.nodes[n].term].log == w.nodes[n].log
    requires e.term == w.nodes[n].term && e.index == |w.nodes[n].log| + 1 && e.Fits()
    requires g == w.h.(leaders := w.h.leaders[w.nodes[n].term :=
                         w.h.leaders[w.nodes[n].term].(log := w.nodes[n].log + [e])])
    ensures Grows(w.h, g) && LeadersOk(g) && LogOk(g, w.nodes[n].log + [e])
  {
    var h, s := w.h, w.nodes[n];
    assert NodeInv(h, s, n) && LeaderOk(h, s.term);
    forall u | u in h.leaders ensures LeaderGrows(h, g, u) { }
    assert Grows(h, g);
    LogOkGrows(h, g, s.log);
    ExtendedRooted(g, s.log, e, s.term);
    forall u | u in g.leaders ensures LeaderOk(g, u) {
      assert LeaderOk(h, u);
      if u != s.term { LeaderOkGrows(h, g, u); }
    }
  }

  lemma ExtendedRooted(g: History, log: Log, e: Entry, t: nat)
    requires LogOk(g, log) && t in g.leaders && g.leaders[t].log == log + [e] && e.term == t
    requires e.index == |log| + 1 && e.Fits()
    ensures forall k: nat {:trigger Rooted(g, log + [e], k)} :: k < |log + [e]| ==> Rooted(g, log + [e], k)
  {
    forall k: nat {:trigger Rooted(g, log + [e], k)} | k < |log + [e]| ensures Rooted(g, log + [e], k) {
      if k < |log| { assert Rooted(g, log, k); }
    }
  }

  lemma ExtenderInv(g: History, s: Stable, n: Id, e: Entry)
    requires NodeInv(g, s, n) && LogOk(g, s.log + [e])
    requires e.term == s.term && e.index == |s.log| + 1 && e.Fits()
    ensures NodeInv(g, s.(log := s.log + [e]), n)
  {
    var log' := s.log + [e];
    var s' := s.(log := log');
    SettledGrows(g, g, s.log, log', s.commit, s.term, s.term);
    forall u | (n, u) in g.ballots ensures BallotOk(g, s', n, u) {
      assert BallotOk(g, s, n, u);
    }
    forall u | (n, u) in g.acks ensures AckOk(g, s', n, u) {
      assert AckOk(g, s, n, u);
      var acked, bound := g.acks[(n, u)], s.term + 1;
      forall j: nat | j <= acked ensures Kept(g, log', bound, u, j) {
        assert Kept(g, s.log, s.term + 1, u, j);
      }
    }
  }

  /** A member acknowledges a prefix that it shares with the leader of its term. */
  lemma Ack(w: World, n: Id, i: nat) returns (g: History)
    requires Inv(w) && w.nodes[n].term in w.h.leaders
    requires Agree(w.nodes[n].log, w.h.leaders[w.nodes[n].term].log, i)
    ensures g == w.h.(acks := w.h.acks[(n, w.nodes[n].term) := Max(i, AckOf(w.h, n, w.nodes[n].term))])
    ensures Grows(w.h, g)
    ensures Inv(World(w.nodes, g))
  {
    var h, s := w.h, w.nodes[n];
    var t := s.term;
    g := h.(acks := h.acks[(n, t) := Max(i, AckOf(h, n, t))]);
    assert NodeInv(h, s, n);
    forall u | u in h.leaders ensures LeaderGrows(h, g, u) { }
    assert Grows(h, g);
    forall u | u in g.leaders ensures LeaderOk(g, u) {
      assert LeaderOk(h, u);
      LeaderOkGrows(h, g, u);
    }
    forall m: Id, u: nat, t0: nat ensures SameBallot(h, g, m, u, t0) || BallotKept(g, m, u, t0) {
      if m == n && (n, u) in h.ballots { assert BallotOk(h, s, n, u); }
    }
    HistoryInvGrows(h, g);
    forall m: Id ensures NodeInv(g, w.nodes[m], m) {
      assert NodeInv(h, w.nodes[m], m);
      if m != n { NodeInvGrows(h, g, w.nodes[m], m); } else { AckerInv(h, g, s, n, i); }
    }
  }

  lemma AckerInv(h: History, g: History, s: Stable, n: Id, i: nat)
    requires NodeInv(h, s, n) && s.term in h.leaders && Agree(s.log, h.leaders[s.term].log, i)
    requires g == h.(acks := h.acks[(n, s.term) := Max(i, AckOf(h, n, s.term))]) && Grows(h, g)
    ensures NodeInv(g, s, n)
  {
    LogOkGrows(h, g, s.log);
    SettledGrows(h, g, s.log, s.log, s.commit, s.term, s.term);
    forall u | (n, u) in g.ballots ensures BallotOk(g, s, n, u) {
      assert BallotOk(h, s, n, u);
      LogOkGrows(h, g, h.ballots[(n, u)].log);
    }
    forall u | (n, u) in g.acks ensures AckOk(g, s, n, u) {
      if (n, u) in h.acks {
        assert AckOk(h, s, n, u) && LeaderGrows(h, g, u);
        KeptGrows(h, g, s.log, s.term + 1, s.term + 1, u, h.acks[(n, u)]);
      }
      var acked, bound := g.acks[(n, u)], s.term + 1;
      forall j: nat | j <= acked ensures Kept(g, s.log, bound, u, j) { }
    }
  }

  /** The leader of term `t` commits through one of its own entries held by a quorum. */
  lemma Commit(w: World, t: nat, i: nat) returns (g: History)
    requires Inv(w) && t in w.h.leaders && 1 <= i <= |w.h.leaders[t].log|
    requires w.h.leaders[t].log[i - 1].term == t && Quorate(w.h, t, i)
    ensures g == w.h.(commits := w.h.commits + {(t, i)},
                      chosen := if |w.h.chosen| < i then w.h.leaders[t].log[..i] else w.h.chosen)
    ensures Grows(w.h, g)
    ensures Inv(World(w.nodes, g))
  {
    var h := w.h;
    var lead := h.leaders[t].log;
    g := h.(commits := h.commits + {(t, i)}, chosen := if |h.chosen| < i then lead[..i] else h.chosen);
    ChosenAgrees(w, t, i);
    forall u | u in h.leaders ensures LeaderGrows(h, g, u) { }
    assert Grows(h, g);
    forall u | u in g.leaders ensures LeaderOk(g, u) {
      assert LeaderOk(h, u);
      LeaderOkGrows(h, g, u);
    }
    forall m: Id, u: nat, t0: nat ensures BallotKept(g, m, u, t0) {
      assert BallotKept(h, m, u, t0);
      if SameBallot(h, g, m, u, t0) { BallotKeptGrows(h, g, m, u, t0); }
    }
    CommitsOk(w, g, t, i);
    if g.chosen != [] {
      var u: nat :| (u, |g.chosen|) in g.commits;
      assert CommitOk(g, u, |g.chosen|);
    }
    forall m: Id ensures NodeInv(g, w.nodes[m], m) {
      assert NodeInv(h, w.nodes[m], m);
      NodeInvGrows(h, g, w.nodes[m], m);
    }
  }

  /** The recorded commits with the new one, and the chosen log they end in. */
  lemma CommitsOk(w: World, g: History, t: nat, i: nat)
    requires Inv(w) && t in w.h.leaders && 1 <= i <= |w.h.leaders[t].log|
    requires w.h.leaders[t].log[i - 1].term == t && Quorate(w.h, t, i)
    requires Agree(w.h.leaders[t].log, w.h.chosen, Min(i, |w.h.chosen|)) && Grows(w.h, g)
    requires g == w.h.(commits := w.h.commits + {(t, i)},
                       chosen := if |w.h.chosen| < i then w.h.leaders[t].log[..i] else w.h.chosen)
    ensures forall u, k {:trigger CommitOk(g, u, k)} :: (u, k) in g.commits ==> CommitOk(g, u, k)
    ensures g.chosen != [] ==> exists u {:trigger CommitOk(g, u, |g.chosen|)} :: (u, |g.chosen|) in g.commits
  {
    var h := w.h;
    forall u, k | (u, k) in g.commits ensures CommitOk(g, u, k) {
      if (u, k) in h.commits {
        assert CommitOk(h, u, k) && LeaderGrows(h, g, u);
        QuorateGrows(h, g, u, k);
      } else {
        QuorateGrows(h, g, t, i);
      }
    }
    if g.chosen != [] {
      if |h.chosen| < i {
        assert CommitOk(g, t, |g.chosen|);
      } else {
        var u: nat :| (u, |h.chosen|) in h.commits;
        assert CommitOk(g, u, |g.chosen|);
      }
    }
  }

  /** Whatever a quorum holds in term `t` agrees with what was chosen before. */
  lemma ChosenAgrees(w: World, t: nat, i: nat)
    requires Inv(w) && t in w.h.leaders && 1 <= i <= |w.h.leaders[t].log|
    requires w.h.leaders[t].log[i - 1].term == t && Quorate(w.h, t, i)
    ensures Agree(w.h.leaders[t].log, w.h.chosen, Min(i, |w.h.chosen|))
  {
    if w.h.chosen != [] {
      var u: nat :| (u, |w.h.chosen|) in w.h.commits;
      assert CommitOk(w.h, u, |w.h.chosen|);
      if u <= t {
        CommitsNest(w, u, |w.h.chosen|, t);
      } else {
        LeaderCompleteness(w, t, i, u);
        assert LeaderOk(w.h, u);
      }
    }
  }
}
