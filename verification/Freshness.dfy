/** ReadIndex: what a read that resolves successfully has seen. */
module Freshness {
  import opened Commands
  import opened Quorums
  import opened Cluster
  import opened Steps
  import opened Invariant
  import opened Growth
  import opened Completeness
  import opened Safety
  import opened Handlers

  /** At moment `j` node `p` opened read `id`; at moment `k` that read, still in the same
      term, has been confirmed by a majority. */
  ghost predicate Confirmed(cs: seq<World>, j: nat, k: nat, p: Id, id: nat) {
    && j < k < |cs| && p in cs[j].nodes && p in cs[k].nodes
    && Enabled(cs[j], StartRead(p, id)) && cs[j + 1] == Do(cs[j], StartRead(p, id))
    && cs[k].nodes[p].read.Some? && cs[k].nodes[p].phase == Idle
    && cs[k].nodes[p].term == cs[j].nodes[p].term
    && cs[k].nodes[p].read.value.id == id
    && |cs[k].nodes[p].read.value.acks| >= |cs[k].cfg.peers| / 2 + 1
  }

  lemma CaptureRecorded(c: World, p: Id, id: nat)
    requires Enabled(c, StartRead(p, id))
    ensures var t := c.nodes[p].term; var h := Do(c, StartRead(p, id)).h;
            && (t, id) in h.captures && h.captures[(t, id)].index == c.nodes[p].commit
            && h.captures[(t, id)].won == c.h.won.Keys && h.captures[(t, id)].commits == c.h.commits.Keys
  {}

  lemma ConfirmedCapture(cs: seq<World>, j: nat, k: nat, p: Id, id: nat)
    requires Run(cs) && Confirmed(cs, j, k, p, id)
    ensures var t := cs[j].nodes[p].term; var h := cs[k].h;
            && (t, id) in h.captures && h.captures[(t, id)].index == cs[j].nodes[p].commit
            && h.captures[(t, id)].won == cs[j].h.won.Keys && h.captures[(t, id)].commits == cs[j].h.commits.Keys
  {
    hide Run, Enabled, Do;
    RunGrows(cs, j + 1, k);
    CaptureRecorded(cs[j], p, id);
  }

  /** The read's majority had not passed its term when the index was taken, so no later
      term had been won. */
  lemma NoLaterTermWon(c: World, p: Id, s: nat)
    requires Inv(c) && p in c.nodes && c.nodes[p].read.Some?
    requires |c.nodes[p].read.value.acks| >= |c.cfg.peers| / 2 + 1
    ensures (c.nodes[p].term, c.nodes[p].read.value.id) in c.h.captures
    ensures s in c.h.captures[(c.nodes[p].term, c.nodes[p].read.value.id)].won ==> s <= c.nodes[p].term
  {
    hide Indexes, StateOk, AckOk, Safe, BufferOk, MsgInv, VoteOk, LeaderOk, LogOk;
    hide Lines, Candidacies, Ballots, VotersKept, Commits, AcksFit;
    var n := c.nodes[p];
    assert NodeInv(c.cfg, c.h, p, n);
    var r := n.read.value;
    assert CaptureOk(c.cfg, c.h, n.term, r.id);
    if s in c.h.captures[(n.term, r.id)].won {
      assert WonBy(c.cfg, c.h, s);
      var x := Overlap(r.acks, c.h.won[s].voters, c.cfg.peers);
    }
  }

  lemma ReadServed(c: World, p: Id)
    requires Inv(c) && p in c.nodes && c.nodes[p].read.Some? && c.nodes[p].phase == Idle
    ensures var n := c.nodes[p];
            && n.role == Leader && n.read.value.index <= n.commit <= n.applied <= n.stateIndex <= |n.log|
            && n.term in c.h.won && n.term in c.h.lines && c.h.lines[n.term] == n.log
            && (c.h.clean ==> n.state == Fold(n.log[..n.stateIndex]))
  {
    hide AckOk, Safe, BufferOk, MsgInv, VoteOk, LogOk, HistInv, Fold, Accepted;
    assert NodeInv(c.cfg, c.h, p, c.nodes[p]);
  }

  /** A commit made before the read's index was taken lies at or below that index, provided
      the index covers the log the leader was elected with. */
  lemma CommitBelowIndex(cfg: Config, h: History, t: nat, id: nat, s: nat, i: nat)
    requires HistInv(cfg, h) && (t, id) in h.captures && (s, i) in h.captures[(t, id)].commits && s <= t
    requires t in h.won && |h.won[t].log| <= h.captures[(t, id)].index
    ensures s in h.lines && t in h.lines && i <= |h.lines[s]| && i <= h.captures[(t, id)].index
    ensures h.lines[s][..i] <= h.lines[t]
  {
    hide VotersKept, Candidacies, Ballots, Elections, AcksFit;
    assert CaptureOk(cfg, h, t, id) && CommitOk(cfg, h, s, i) && LineOk(h, t);
    if s < t { LeaderCompleteness(cfg, h, s, i, t); }
  }

  /** No later term had been won when the index was taken, in terms of the nodes. */
  lemma NoNewerLeader(cs: seq<World>, j: nat, k: nat, p: Id, id: nat, m: nat, q: Id)
    requires Run(cs) && Confirmed(cs, j, k, p, id)
    requires m <= j && q in cs[m].nodes && cs[m].nodes[q].role == Leader
    ensures cs[m].nodes[q].term <= cs[j].nodes[p].term
  {
    hide Run, Inv, Enabled, Do;
    InvariantHolds(cs, m);
    InvariantHolds(cs, k);
    RunGrows(cs, m, j);
    ConfirmedCapture(cs, j, k, p, id);
    LeaderWon(cs[m], q);
    NoLaterTermWon(cs[k], p, cs[m].nodes[q].term);
  }

  /** ReadIndex freshness: a confirmed read is served from a state that has applied its
      index, and if no entry above that index was inherited from an earlier term, from a
      state that contains everything any node knew committed when the index was taken. */
  lemma ReadFreshness(cs: seq<World>, j: nat, k: nat, p: Id, id: nat, m: nat, q: Id)
    requires Run(cs) && Confirmed(cs, j, k, p, id) && m <= j && q in cs[m].nodes
    ensures var n, n' := cs[j].nodes[p], cs[k].nodes[p];
            && n.commit == n'.read.value.index && n'.read.value.index <= n'.applied <= n'.stateIndex <= |n'.log|
            && (cs[k].h.clean ==> n'.state == Fold(n'.log[..n'.stateIndex]))
    ensures NothingInherited(cs[j].nodes[p]) ==>
            var b, n' := cs[m].nodes[q], cs[k].nodes[p];
            b.high <= |b.log| && b.log[..b.high] <= n'.log[..n'.stateIndex]
  {
    hide Run, Inv, Enabled, Do, HistInv, Safe, Fold, Accepted;
    InvariantHolds(cs, j);
    InvariantHolds(cs, m);
    InvariantHolds(cs, k);
    RunGrows(cs, m, j);
    RunGrows(cs, j, k);
    RunGrows(cs, m, k);
    ConfirmedCapture(cs, j, k, p, id);
    ReadServed(cs[k], p);
    ReadIndexKept(cs[k], p);
    if NothingInherited(cs[j].nodes[p]) {
      var b := cs[m].nodes[q];
      NodeSafe(cs[m], cs[m].h, q) by { RunGrows(cs, m, m); }
      StartCovered(cs, j, k, p, id);
      if b.high > 0 {
        var s: nat, i: nat := SafeWitness(cs[m].h, b.log, b.high, b.term);
        NoLaterTermWon(cs[k], p, s);
        WorldLines(cs[m]);
        CommitWon(cs[m].cfg, cs[m].h, s, i);
        WorldLines(cs[k]);
        CommitBelowIndex(cs[k].cfg, cs[k].h, cs[k].nodes[p].term, id, s, i);
        SafePrefix(cs[m].h, cs[k].h, b.log, b.high, b.term, s, i, cs[k].nodes[p].log);
        Within(b.log[..b.high], cs[k].nodes[p].log, cs[k].nodes[p].stateIndex);
      }
    }
  }

  /** Every entry above the commit index is of the node's current term. */
  ghost predicate NothingInherited(n: Node) {
    forall x :: n.commit <= x < |n.log| ==> n.log[x].term == n.term
  }

  /** The commit index covers an entry of the node's current term. */
  ghost predicate CommittedOwnTerm(n: Node) {
    exists x :: 0 <= x < n.commit && x < |n.log| && n.log[x].term == n.term
  }

  /** The textbook condition, a commit in the leader's own term, is enough. */
  lemma OwnTermSuffices(c: World, p: Id)
    requires Inv(c) && p in c.nodes && CommittedOwnTerm(c.nodes[p])
    ensures NothingInherited(c.nodes[p])
  {
    hide Indexes, StateOk, AckOk, Safe, BufferOk, MsgInv, VoteOk, HistInv, LeaderOk, ReadOk, OnLine;
    assert NodeInv(c.cfg, c.h, p, c.nodes[p]);
  }

  lemma ReadIndexKept(c: World, p: Id)
    requires Inv(c) && p in c.nodes && c.nodes[p].read.Some?
    ensures (c.nodes[p].term, c.nodes[p].read.value.id) in c.h.captures
    ensures c.nodes[p].read.value.index == c.h.captures[(c.nodes[p].term, c.nodes[p].read.value.id)].index
  {
    hide Indexes, StateOk, AckOk, Safe, BufferOk, MsgInv, VoteOk, LogOk, HistInv, LeaderOk;
    assert NodeInv(c.cfg, c.h, p, c.nodes[p]);
  }

  lemma StartCovered(cs: seq<World>, j: nat, k: nat, p: Id, id: nat)
    requires Run(cs) && Confirmed(cs, j, k, p, id) && NothingInherited(cs[j].nodes[p])
    ensures var t := cs[j].nodes[p].term; var h := cs[k].h;
            (t, id) in h.captures && t in h.won && |h.won[t].log| <= h.captures[(t, id)].index
  {
    hide Run, Inv, Enabled, Do;
    InvariantHolds(cs, j);
    RunGrows(cs, j, k);
    ConfirmedCapture(cs, j, k, p, id);
    var n := cs[j].nodes[p];
    LeaderWon(cs[j], p) by { OpenerLeads(cs[j], p, id); }
    StartWithin(cs[j], n.term);
    StartBelow(n.log, |cs[j].h.won[n.term].log|, n.commit, n.term);
  }

  predicate OwnAt(log: seq<Entry>, x: nat, t: nat) { x < |log| ==> log[x].term == t }

  lemma StartBelow(log: seq<Entry>, start: nat, c: nat, t: nat)
    requires start <= |log| && forall i :: 0 <= i < start ==> log[i].term < t
    requires forall x :: c <= x < |log| ==> log[x].term == t
    ensures start <= c
  {
    assert OwnAt(log, c, t);
  }

  lemma OpenerLeads(c: World, p: Id, id: nat)
    requires Enabled(c, StartRead(p, id))
    ensures p in c.nodes && c.nodes[p].role == Leader
  {}

  lemma StartWithin(c: World, t: nat)
    requires Inv(c) && t in c.h.won
    ensures t in c.h.lines && c.h.won[t].log <= c.h.lines[t]
    ensures forall i :: 0 <= i < |c.h.won[t].log| ==> c.h.lines[t][i].term < t
  {
    hide NodeInv, MsgInv, Candidacies, Ballots, Elections, AcksFit, VotersKept, Commits, Captures;
    assert LineOk(c.h, t);
  }

  /** All that a confirmed read can miss: if some node knew more committed than the index,
      then the leader's own log holds the first missed entry, inherited from an earlier term. */
  lemma MissedIsInherited(cs: seq<World>, j: nat, k: nat, p: Id, id: nat, m: nat, q: Id)
    requires Run(cs) && Confirmed(cs, j, k, p, id) && m <= j && q in cs[m].nodes
    ensures var n, b := cs[j].nodes[p], cs[m].nodes[q];
            && b.high <= |b.log|
            && (n.commit < b.high ==>
                  n.commit < |n.log| && n.log[n.commit].term < n.term && b.log[..n.commit + 1] == n.log[..n.commit + 1])
  {
    hide Run, Inv, Enabled, Do, Confirmed, HistInv, Safe, Fold, Accepted;
    assert j < |cs| && p in cs[j].nodes && cs[j].nodes[p].role == Leader by { ConfirmedLeads(cs, j, k, p, id); }
    var n, b, h := cs[j].nodes[p], cs[m].nodes[q], cs[j].h;
    InvariantHolds(cs, m);
    InvariantHolds(cs, j);
    NodeSafe(cs[m], cs[m].h, q) by { RunGrows(cs, m, m); }
    if n.commit < b.high {
      var s: nat, i: nat := MissedCommit(cs, j, k, p, id, m, q);
      LeaderWon(cs[j], p);
      CommitOwn(cs[j], p, s, i);
      WorldLines(cs[j]);
      EarlierCommit(cs[j].cfg, h, s, i, n.term);
      StartWithin(cs[j], n.term);
      SafePrefix(h, h, b.log, b.high, b.term, s, i, h.won[n.term].log) by { RunGrows(cs, j, j); }
      Inherited(b.log, b.high, h.won[n.term].log, n.log, n.commit);
    }
  }

  lemma ConfirmedLeads(cs: seq<World>, j: nat, k: nat, p: Id, id: nat)
    requires Confirmed(cs, j, k, p, id)
    ensures j < k < |cs| && p in cs[j].nodes && cs[j].nodes[p].role == Leader
  {
    OpenerLeads(cs[j], p, id);
  }

  /** What a node knew committed was committed in a term no later than the read's. */
  lemma MissedCommit(cs: seq<World>, j: nat, k: nat, p: Id, id: nat, m: nat, q: Id) returns (s: nat, i: nat)
    requires Run(cs) && Confirmed(cs, j, k, p, id) && m <= j && q in cs[m].nodes && cs[m].nodes[q].high > 0
    ensures (s, i) in cs[j].h.commits && s <= cs[j].nodes[p].term
    ensures var b := cs[m].nodes[q]; SafeBy(cs[j].h, b.log, b.high, b.term, s, i)
  {
    hide Run, Inv, Enabled, Do, HistInv, Safe, Fold, Accepted;
    InvariantHolds(cs, m);
    InvariantHolds(cs, k);
    RunGrows(cs, m, j);
    ConfirmedCapture(cs, j, k, p, id);
    var b := cs[m].nodes[q];
    NodeSafe(cs[m], cs[j].h, q);
    s, i := SafeWitness(cs[j].h, b.log, b.high, b.term);
    InvariantHolds(cs, j);
    WorldLines(cs[j]);
    CommitWon(cs[j].cfg, cs[j].h, s, i);
    NoLaterTermWon(cs[k], p, s);
  }

  /** Commits of a leader's own term lie at or below its commit index. */
  lemma CommitOwn(c: World, p: Id, s: nat, i: nat)
    requires Inv(c) && p in c.nodes && c.nodes[p].role == Leader && (s, i) in c.h.commits
    ensures s == c.nodes[p].term ==> i <= c.nodes[p].commit
  {
    hide Indexes, StateOk, AckOk, Safe, BufferOk, MsgInv, VoteOk, LogOk, HistInv, ReadOk;
    assert NodeInv(c.cfg, c.h, p, c.nodes[p]);
  }

  lemma EarlierCommit(cfg: Config, h: History, s: nat, i: nat, t: nat)
    requires HistInv(cfg, h) && (s, i) in h.commits && s < t && t in h.won
    ensures s in h.lines && i <= |h.lines[s]| && h.lines[s][..i] <= h.won[t].log
  {
    LeaderCompleteness(cfg, h, s, i, t);
  }

  lemma Inherited(log: seq<Entry>, high: nat, start: seq<Entry>, line: seq<Entry>, c: nat)
    requires high <= |log| && log[..high] <= start <= line && c < high
    ensures c < |start| && log[..c + 1] == line[..c + 1] && line[c] == start[c]
  {
    assert log[..c + 1] == log[..high][..c + 1];
  }

  lemma SafeWitness(h: History, log: seq<Entry>, c: nat, t: nat) returns (s: nat, i: nat)
    requires Safe(h, log, c, t) && c > 0
    ensures SafeBy(h, log, c, t, s, i)
  {
    s, i :| SafeBy(h, log, c, t, s, i);
  }

  lemma CommitWon(cfg: Config, h: History, s: nat, i: nat)
    requires HistInv(cfg, h) && (s, i) in h.commits
    ensures s in h.won
  {
    assert CommitOk(cfg, h, s, i);
  }

  lemma SafePrefix(h: History, h': History, log: seq<Entry>, c: nat, t: nat, s: nat, i: nat, line: seq<Entry>)
    requires Grows(h, h') && SafeBy(h, log, c, t, s, i) && i <= |h'.lines[s]| && h'.lines[s][..i] <= line
    ensures log[..c] <= line
  {
    assert h.lines[s] <= h'.lines[s];
    assert h'.lines[s][..i][..c] == h.lines[s][..c];
  }

  lemma Within<T>(a: seq<T>, b: seq<T>, i: nat)
    requires a <= b && |a| <= i <= |b|
    ensures a <= b[..i]
  {}

  // ----- answers ----------------------------------------------------------------

  /** A step other than its opening leaves a read its id and term, or ends it. */
  lemma ReadStands(c: World, s: Step)
    requires Inv(c) && Enabled(c, s) && !s.StartRead? && NodeAfter(c, s).read.Some?
    ensures var n, n' := c.nodes[s.p], NodeAfter(c, s);
            n.read.Some? && n.read.value.id == n'.read.value.id && n.term == n'.term
  {
    hide Indexes, StateOk, AckOk, Safe, BufferOk, MsgInv, VoteOk, LogOk, HistInv, LeaderOk, Merged, Grants;
    assert NodeInv(c.cfg, c.h, s.p, c.nodes[s.p]);
    hide Inv, NodeInv;
  }

  /** Every open read was opened at some earlier moment of the same term. */
  lemma {:induction false} ReadOpened(cs: seq<World>, k: nat, p: Id) returns (j: nat)
    requires Run(cs) && k < |cs| && p in cs[k].nodes && cs[k].nodes[p].read.Some?
    ensures j < k && p in cs[j].nodes && cs[j].nodes[p].term == cs[k].nodes[p].term
    ensures var s := StartRead(p, cs[k].nodes[p].read.value.id); Enabled(cs[j], s) && cs[j + 1] == Do(cs[j], s)
    decreases k
  {
    hide Enabled, NodeAfter, Sent, Trace, Inv;
    assert k > 0;
    assert Next(cs[k - 1], cs[k]);
    var c := cs[k - 1];
    var s :| Enabled(c, s) && cs[k] == Do(c, s);
    InvariantHolds(cs, k - 1);
    StepNodes(c, s);
    if s.p == p && s.StartRead? {
      OpenedNow(c, s);
      j := k - 1;
    } else {
      if s.p == p { ReadStands(c, s); }
      j := ReadOpened(cs, k - 1, p);
    }
  }

  lemma OpenedNow(c: World, s: Step)
    requires Enabled(c, s) && s.StartRead?
    ensures NodeAfter(c, s).read.Some? && NodeAfter(c, s).read.value.id == s.id && NodeAfter(c, s).term == c.nodes[s.p].term
  {}

  /** Whatever reads a majority has confirmed, they were opened and confirmed in this sense. */
  lemma MajorityConfirms(cs: seq<World>, k: nat, p: Id) returns (j: nat)
    requires Run(cs) && k < |cs| && p in cs[k].nodes && cs[k].nodes[p].read.Some? && cs[k].nodes[p].phase == Idle
    requires |cs[k].nodes[p].read.value.acks| >= |cs[k].cfg.peers| / 2 + 1
    ensures Confirmed(cs, j, k, p, cs[k].nodes[p].read.value.id)
  {
    hide Run, Enabled, Do;
    j := ReadOpened(cs, k, p);
  }

  lemma RunExtends(cs: seq<World>, k: nat, s: Step)
    requires Run(cs) && k < |cs| && Enabled(cs[k], s)
    ensures Run(cs[..k + 1] + [Do(cs[k], s)])
  {
    hide Enabled, Do, Init;
    var more := cs[..k + 1] + [Do(cs[k], s)];
    forall i | 0 <= i < |more| - 1 ensures Next(more[i], more[i + 1]) {
      if i < k { assert Next(cs[i], cs[i + 1]); } else { assert more[i] == cs[k]; }
    }
  }

  /** Everything any node knew committed up to moment `j` is in these entries. */
  ghost predicate Covers(cs: seq<World>, j: nat, entries: seq<Entry>) {
    forall i, q :: 0 <= i <= j && i < |cs| && q in cs[i].nodes ==>
      cs[i].nodes[q].high <= |cs[i].nodes[q].log| && cs[i].nodes[q].log[..cs[i].nodes[q].high] <= entries
  }

  /** The response that completes a majority answers its read with true, from a store that
      has applied the index of the read; and if nothing above that index was inherited when
      the read was opened, the store holds everything any node knew committed by then. */
  lemma TrueAnswerIsFresh(cs: seq<World>, k: nat, p: Id, m: Msg) returns (j: nat)
    requires Run(cs) && k < |cs| && p in cs[k].cfg.peers && p in cs[k].nodes && cs[k].nodes[p].phase == Idle
    requires Receives(cs[k], p, m) && m.ReadResp? && Completes(cs[k].cfg.peers, cs[k].nodes[p], m)
    ensures j < k && p in cs[j].nodes && Enabled(cs[j], StartRead(p, m.id)) && cs[j + 1] == Do(cs[j], StartRead(p, m.id))
    ensures var n := cs[k].nodes[p]; var served := Closed(cs[k].cfg.codec, Acked(n, m.src), true);
            && served.phase == Idle && n.read.value.index <= served.applied <= served.stateIndex <= |served.log|
            && n.read.value.index == cs[j].nodes[p].commit
            && (cs[k].h.clean ==> served.state == Fold(served.log[..served.stateIndex]))
            && (NothingInherited(cs[j].nodes[p]) ==> Covers(cs, j, served.log[..served.stateIndex]))
  {
    hide Run, Inv, Enabled, Closed, Confirmed, Fold, NothingInherited, Do;
    var c, n := cs[k], cs[k].nodes[p];
    Acks(c, p, m);
    RunExtends(cs, k, AckRead(p, m));
    var more := cs[..k + 1] + [Do(c, AckRead(p, m))];
    assert more[k + 1] == Do(c, AckRead(p, m));
    j := MajorityConfirms(more, k + 1, p);
    ConfirmedOpens(more, j, k + 1, p, m.id);
    assert more[j] == cs[j] && more[j + 1] == cs[j + 1];
    ReadFreshness(more, j, k + 1, p, m.id, j, p);
    assert Closed(c.cfg.codec, Acked(n, m.src), true) == Acked(n, m.src).(read := None) by {
      InvariantHolds(cs, k);
      IdleIndexes(c, p);
      SameIndexes(n, Acked(n, m.src));
      ClosedIdle(c.cfg.codec, Acked(n, m.src), true);
    }
    var entries := n.log[..n.stateIndex];
    if NothingInherited(cs[j].nodes[p]) {
      forall i, q | 0 <= i <= j && i < |cs| && q in cs[i].nodes
        ensures cs[i].nodes[q].high <= |cs[i].nodes[q].log| && cs[i].nodes[q].log[..cs[i].nodes[q].high] <= entries
      {
        assert more[i] == cs[i];
        ReadFreshness(more, j, k + 1, p, m.id, i, q);
      }
    }
  }

  lemma IdleIndexes(c: World, p: Id)
    requires Inv(c) && p in c.nodes
    ensures Indexes(c.nodes[p])
  {
    hide Indexes, StateOk, AckOk, Safe, BufferOk, MsgInv, VoteOk, LogOk, HistInv, LeaderOk, ReadOk;
    assert NodeInv(c.cfg, c.h, p, c.nodes[p]);
  }

  lemma ConfirmedOpens(cs: seq<World>, j: nat, k: nat, p: Id, id: nat)
    requires Confirmed(cs, j, k, p, id)
    ensures j < k < |cs| && p in cs[j].nodes && Enabled(cs[j], StartRead(p, id)) && cs[j + 1] == Do(cs[j], StartRead(p, id))
    ensures cs[j].nodes[p].read.None?
  {}

  lemma Acks(c: World, p: Id, m: Msg)
    requires p in c.cfg.peers && p in c.nodes && c.nodes[p].phase == Idle && Receives(c, p, m) && m.ReadResp?
    requires Confirms(c.nodes[p], m)
    ensures Enabled(c, AckRead(p, m)) && Do(c, AckRead(p, m)).h == c.h && Do(c, AckRead(p, m)).cfg == c.cfg
    ensures p in Do(c, AckRead(p, m)).nodes && Do(c, AckRead(p, m)).nodes[p] == Acked(c.nodes[p], m.src)
  {}
}
