/** Facts about a moment of a run that refer back to what a node did earlier. */
module Moments {
  import opened Commands
  import opened Quorums
  import opened Cluster
  import opened Steps
  import opened Invariant
  import opened Growth
  import opened Safety
  import opened Handlers
  import opened Draining
  import LocalSteps
  import SnapshotSteps

  // ----- match-index soundness --------------------------------------------------

  /** At moment `j` node `q` was in term `t` and had recorded this much of its line. */
  ghost predicate AckedAt(cs: seq<World>, j: nat, t: nat, q: Id, a: nat) {
    j < |cs| && q in cs[j].nodes && cs[j].nodes[q].term == t &&
    (t, q) in cs[j].h.acks && cs[j].h.acks[(t, q)] == a
  }

  /** An acknowledgement is recorded only by the node itself, in its current term. */
  lemma AckStep(c: World, s: Step, t: nat, q: Id)
    requires Enabled(c, s) && (t, q) in Do(c, s).h.acks
    ensures ((t, q) in c.h.acks && c.h.acks[(t, q)] == Do(c, s).h.acks[(t, q)]) ||
            (q == s.p && q in Do(c, s).nodes && Do(c, s).nodes[q].term == t)
  {
    hide NodeAfter, Sent, Enabled, Takes, Merged, Promote, Installs;
    match s
    case AnswerSnapshot(p, m) => AckerTerm(c, s);
    case AnswerAppend(p, m) => AckerTerm(c, s);
    case Win(p) => AckerTerm(c, s);
    case Submit(p, command) => AckerTerm(c, s);
    case _ => AcksStand(c, s);
  }

  lemma AckerTerm(c: World, s: Step)
    requires Enabled(c, s) && (s.Win? || s.Submit? || s.AnswerAppend? || s.AnswerSnapshot?)
    ensures NodeAfter(c, s).term == c.nodes[s.p].term
  {
    hide Takes, Merged, ChunkNode;
    if s.AnswerSnapshot? { SnapshotSteps.ChunkTerm(c.cfg, c.nodes[s.p], s.m); }
  }

  lemma AcksStand(c: World, s: Step)
    requires Enabled(c, s) && !s.Win? && !s.Submit? && !s.AnswerAppend? && !s.AnswerSnapshot?
    ensures Do(c, s).h.acks == c.h.acks
  {
    hide Enabled, NodeAfter, Sent, Grants, Holders;
  }

  /** Every recorded acknowledgement was made at some moment. */
  lemma {:induction false} AckMoment(cs: seq<World>, k: nat, t: nat, q: Id) returns (j: nat)
    requires Run(cs) && k < |cs| && (t, q) in cs[k].h.acks
    ensures j <= k && AckedAt(cs, j, t, q, cs[k].h.acks[(t, q)])
    decreases k
  {
    hide Enabled, Do;
    assert k > 0;
    assert Next(cs[k - 1], cs[k]);
    var s :| Enabled(cs[k - 1], s) && cs[k] == Do(cs[k - 1], s);
    AckStep(cs[k - 1], s, t, q);
    if (t, q) in cs[k - 1].h.acks && cs[k - 1].h.acks[(t, q)] == cs[k].h.acks[(t, q)] {
      j := AckMoment(cs, k - 1, t, q);
    } else {
      j := k;
    }
  }

  /** A node that acknowledged in its current term holds what it acknowledged. */
  lemma AckedHeld(c: World, q: Id, i: nat)
    requires Inv(c) && q in c.nodes && (c.nodes[q].term, q) in c.h.acks && i <= c.h.acks[(c.nodes[q].term, q)]
    ensures var t := c.nodes[q].term; t in c.h.lines && i <= |c.h.lines[t]| && c.h.lines[t][..i] <= c.nodes[q].log
  {
    hide Indexes, StateOk, Safe, LeaderOk, ReadOk, BufferOk, MsgInv, VoteOk, LogOk;
    hide Lines, Candidacies, Ballots, Elections, VotersKept, Commits, Captures;
    var n := c.nodes[q];
    assert NodeInv(c.cfg, c.h, q, n);
    assert Kept(c.h, n.log, n.term, n.term, i);
  }

  lemma MatchAcked(c: World, p: Id, q: Id, i: nat)
    requires Inv(c) && p in c.nodes && c.nodes[p].role == Leader && q in c.nodes[p].matched
    requires c.nodes[p].snap < i <= c.nodes[p].matched[q]
    ensures (c.nodes[p].term, q) in c.h.acks && i <= c.h.acks[(c.nodes[p].term, q)]
  {
    hide Indexes, StateOk, Safe, ReadOk, BufferOk, MsgInv, VoteOk, LogOk, AckOk, HistInv;
    var n := c.nodes[p];
    assert NodeInv(c.cfg, c.h, p, n);
    assert MatchOk(c.h, n, q);
  }

  /** Match-index soundness: if a leader's match index for a peer reaches an index above its
      snapshot, then at some earlier moment of this term that peer had stored the leader's
      log up to that index, whatever stale or repeated responses came in. */
  lemma MatchIndexSound(cs: seq<World>, k: nat, p: Id, q: Id, i: nat) returns (j: nat)
    requires Run(cs) && k < |cs| && p in cs[k].nodes && cs[k].nodes[p].role == Leader
    requires q in cs[k].nodes[p].matched && cs[k].nodes[p].snap < i <= cs[k].nodes[p].matched[q]
    ensures j <= k && q in cs[j].nodes && cs[j].nodes[q].term == cs[k].nodes[p].term
    ensures i <= |cs[k].nodes[p].log| && cs[k].nodes[p].log[..i] <= cs[j].nodes[q].log
  {
    hide Run, Inv, Grows;
    var t := cs[k].nodes[p].term;
    InvariantHolds(cs, k);
    MatchAcked(cs[k], p, q, i);
    j := AckMoment(cs, k, t, q);
    InvariantHolds(cs, j);
    RunGrows(cs, j, k);
    AckedHeld(cs[j], q, i);
    LeaderWon(cs[k], p);
    HoldsGrows(cs[j].h, cs[k].h, [], t, i);
  }

  // ----- snapshots --------------------------------------------------------------

  /** Snapshot label correctness over runs: between handlers fewer than eight applied entries
      wait for a snapshot, and when one is taken, last_applied equals commit_index and the
      store holds exactly the entries up to it, although commit_index may have fallen. */
  lemma SnapshotLabelled(cs: seq<World>, k: nat, p: Id)
    requires Run(cs) && k < |cs| && p in cs[k].nodes
    ensures var n := cs[k].nodes[p];
            && (n.phase == Idle ==> n.applied < n.snap + SNAPSHOT_THRESHOLD)
            && (n.phase == Compacting && NeedsSnapshot(n) ==>
                  n.applied == n.commit == n.stateIndex <= |n.log| && (cs[k].h.clean ==> n.state == Fold(n.log[..n.commit])))
  {
    hide Run, AckOk, Safe, ReadOk, BufferOk, MsgInv, HistInv, VoteOk, LeaderOk, LogOk, Accepted, Fold;
    InvariantHolds(cs, k);
    assert NodeInv(cs[k].cfg, cs[k].h, p, cs[k].nodes[p]);
  }

  /** Snapshot install is a refinement: the installed store is the fold of the leader's
      prefix; nothing the node knew committed and nothing it acknowledged to this leader is
      dropped; the suffix stays exactly when the terms agree. */
  lemma InstallRefines(cs: seq<World>, k: nat, p: Id, m: Msg)
    requires Run(cs) && k < |cs| && m.SnapReq? && Enabled(cs[k], AnswerSnapshot(p, m))
    requires Installs(cs[k].cfg, cs[k].nodes[p], m)
    ensures var n := cs[k].nodes[p]; var n' := Do(cs[k], AnswerSnapshot(p, m)).nodes[p]; var t := n.term;
            && n.high <= |n.log| && n.log[..n.high] <= n'.log
            && m.prefix <= n'.log && n'.snap == n'.applied == m.index == |m.prefix|
            && n'.log == (if KeepsSuffix(n, m) then n.log else m.prefix)
            && ((t, p) in cs[k].h.acks ==> t in cs[k].h.lines && cs[k].h.acks[(t, p)] <= |cs[k].h.lines[t]| &&
                                           cs[k].h.lines[t][..cs[k].h.acks[(t, p)]] <= n'.log)
            && (cs[k].h.clean ==> n'.state == Fold(m.prefix))
  {
    hide Run, Inv, Grows, Enabled, Do, HistInv, MsgInv, Fold, KeepsSuffix;
    var c := cs[k];
    InvariantHolds(cs, k);
    InstallStep(c, p, m);
    var t, c' := c.nodes[p].term, Do(c, AnswerSnapshot(p, m));
    StepKeeps(c, AnswerSnapshot(p, m));
    if (t, p) in c.h.acks {
      AckedHeld(c', p, c.h.acks[(t, p)]);
      AckedLine(c, p);
    }
  }

  lemma AckedLine(c: World, p: Id)
    requires Inv(c) && p in c.nodes && (c.nodes[p].term, p) in c.h.acks
    ensures var t := c.nodes[p].term; t in c.h.lines && c.h.acks[(t, p)] <= |c.h.lines[t]|
  {
    hide NodeInv, MsgInv, Lines, Candidacies, Ballots, Elections, VotersKept, Commits, Captures;
    assert (c.nodes[p].term, p).0 in c.h.lines;
  }

  lemma InstallStep(c: World, p: Id, m: Msg)
    requires Inv(c) && m.SnapReq? && Enabled(c, AnswerSnapshot(p, m)) && Installs(c.cfg, c.nodes[p], m)
    ensures var n := c.nodes[p]; var c' := Do(c, AnswerSnapshot(p, m)); var t := n.term;
            && p in c.nodes && p in c'.nodes && c'.nodes[p].term == t && c'.h.lines == c.h.lines
            && n.high <= |n.log| && n.log[..n.high] <= c'.nodes[p].log
            && m.prefix <= c'.nodes[p].log && c'.nodes[p].snap == c'.nodes[p].applied == m.index == |m.prefix|
            && c'.nodes[p].log == (if KeepsSuffix(n, m) then n.log else m.prefix)
            && (c.h.clean ==> c'.nodes[p].state == Fold(m.prefix))
            && ((t, p) in c.h.acks ==> (t, p) in c'.h.acks && c.h.acks[(t, p)] <= c'.h.acks[(t, p)])
  {
    hide AckOk, Safe, ReadOk, BufferOk, VoteOk, LeaderOk, LogOk, StateOk, Fold, Accepted, KeepsSuffix, ChunkReply;
    hide Candidacies, Ballots, Elections, VotersKept, Commits, Captures, Lines, Grows;
    var n := c.nodes[p];
    assert NodeInv(c.cfg, c.h, p, n) && MsgInv(c.cfg, c.h, m);
    SnapshotSteps.InstallIsMerge(c.cfg, c.h, n, m);
    SnapshotSteps.InstallKeepsHigh(c.cfg, c.h, n, m.index);
    SnapshotSteps.Reassembly(c.cfg, c.h, n, m);
  }

  lemma InstallReady(c: World, p: Id, m: Msg)
    requires Inv(c) && c.h.clean && m.SnapReq? && Enabled(c, AnswerSnapshot(p, m)) && Installs(c.cfg, c.nodes[p], m)
    ensures var n' := NodeAfter(c, AnswerSnapshot(p, m));
            && n' == ChunkNode(c.cfg, c.nodes[p], m) && n'.applied == n'.stateIndex == n'.snap == m.index <= n'.commit
            && Ready(n') && (n'.commit > n'.snap ==> TermOf(n'.log, n'.commit) != 0)
  {
    hide Inv, Fold, Accepted, Ready, Enabled, Installs, ChunkNode, HistInv, MsgInv;
    AnswersIdle(c, p, m);
    var n := c.nodes[p];
    var n' := NodeAfter(c, AnswerSnapshot(p, m));
    InstallStep(c, p, m);
    StepKeeps(c, AnswerSnapshot(p, m));
    assert Do(c, AnswerSnapshot(p, m)).nodes[p] == n';
    IdleAccepted(c, p);
    MsgAccepted(c, m);
    NodeTerms(Do(c, AnswerSnapshot(p, m)), p);
    InstalledCommit(c, p, m);
    CommitAccepted(n, n', m);
  }

  lemma AnswersIdle(c: World, p: Id, m: Msg)
    requires Enabled(c, AnswerSnapshot(p, m))
    ensures p in c.nodes && c.nodes[p].phase == Idle && m in c.net
  {}

  /** Between handlers everything up to the commit index has been accepted. */
  lemma IdleAccepted(c: World, p: Id)
    requires Inv(c) && c.h.clean && p in c.nodes && c.nodes[p].phase == Idle
    ensures var n := c.nodes[p]; n.commit <= n.high <= |n.log| && Accepted(n.log[..n.commit])
  {
    hide AckOk, Safe, ReadOk, BufferOk, MsgInv, HistInv, VoteOk, LeaderOk, LogOk, Accepted, Fold;
    var n := c.nodes[p];
    assert NodeInv(c.cfg, c.h, p, n);
    AcceptedPrefix(n.log[..n.stateIndex], n.commit);
    assert n.log[..n.stateIndex][..n.commit] == n.log[..n.commit];
  }

  lemma MsgAccepted(c: World, m: Msg)
    requires Inv(c) && c.h.clean && m in c.net && m.SnapReq?
    ensures Accepted(m.prefix) && |m.prefix| == m.index
  {
    hide NodeInv, HistInv, Safe, Accepted;
    assert MsgInv(c.cfg, c.h, m);
  }

  lemma NodeTerms(c: World, p: Id)
    requires Inv(c) && p in c.nodes
    ensures var n := c.nodes[p]; n.commit <= |n.log| && (0 < n.commit ==> TermOf(n.log, n.commit) != 0)
  {
    hide AckOk, Safe, ReadOk, BufferOk, MsgInv, HistInv, VoteOk, LeaderOk, StateOk, OnLine, Ordered;
    assert NodeInv(c.cfg, c.h, p, c.nodes[p]);
  }

  lemma InstalledCommit(c: World, p: Id, m: Msg)
    requires m.SnapReq? && Enabled(c, AnswerSnapshot(p, m)) && Installs(c.cfg, c.nodes[p], m)
    ensures var n, n' := c.nodes[p], NodeAfter(c, AnswerSnapshot(p, m));
            && n' == ChunkNode(c.cfg, n, m) && n'.commit == Max(n.commit, m.index)
            && n'.applied == n'.stateIndex == n'.snap == m.index && n'.phase == Applying
  {}

  lemma CommitAccepted(n: Node, n': Node, m: Msg)
    requires m.SnapReq? && |m.prefix| == m.index && Accepted(m.prefix) && m.prefix <= n'.log
    requires n.commit <= n.high <= |n.log| && Accepted(n.log[..n.commit]) && n.log[..n.high] <= n'.log
    requires n'.commit == Max(n.commit, m.index) <= |n'.log| && n'.applied == n'.stateIndex == m.index
    requires n'.state == Fold(m.prefix)
    ensures Ready(n')
  {
    hide Fold, Accepted;
    assert n'.log[..m.index] == m.prefix;
    assert n'.log[..n.commit] == n.log[..n.high][..n.commit] == n.log[..n.commit];
  }

  /** And after the replay that follows, the store is the fold of the log up to the commit
      index: the whole handler of an installing chunk, in every clean run. */
  lemma InstallReplays(cs: seq<World>, k: nat, p: Id, m: Msg)
    requires Run(cs) && k < |cs| && cs[k].h.clean && m.SnapReq? && Enabled(cs[k], AnswerSnapshot(p, m))
    requires Installs(cs[k].cfg, cs[k].nodes[p], m)
    ensures var n := cs[k].nodes[p]; var n' := ChunkNode(cs[k].cfg, n, m); var r := OnSnapshot(cs[k].cfg, n, m);
            && Ending(n') == Done && r.phase == Idle && r.log == n'.log && r.commit == Max(n.commit, m.index) <= |r.log|
            && r.applied == r.stateIndex == r.commit && r.state == Fold(r.log[..r.commit])
  {
    hide Run, Inv, Ready, Fold, Settle, Ending, Enabled, ChunkNode;
    AnswersIdle(cs[k], p, m);
    var c, n := cs[k], cs[k].nodes[p];
    InvariantHolds(cs, k);
    InstallReady(c, p, m);
    InstalledCommit(c, p, m);
    var n' := ChunkNode(c.cfg, n, m);
    ReadyIndexes(n');
    SettleReady(c.cfg.codec, n');
    FollowsAlready(c, p, m);
    assert OnSnapshot(c.cfg, n, m) == Settle(c.cfg.codec, n');
  }

  lemma FollowsAlready(c: World, p: Id, m: Msg)
    requires m.SnapReq? && Enabled(c, AnswerSnapshot(p, m)) && Installs(c.cfg, c.nodes[p], m)
    ensures m.term == c.nodes[p].term && Yield(c.nodes[p], m.term) == c.nodes[p]
  {}

  lemma RestartReady(c: World, p: Id)
    requires Inv(c) && c.h.clean && p in c.cfg.peers && p in c.nodes && ReplaySafe(c.nodes[p])
    requires Accepted(c.nodes[p].log[..Restart(c.nodes[p]).commit])
    ensures var n := Restart(c.nodes[p]);
            Ready(n) && n.snap <= n.applied <= n.commit && (n.commit > n.snap ==> TermOf(n.log, n.commit) != 0)
  {
    hide HistInv, MsgInv, VoteOk, AckOk, Safe, ReadOk, BufferOk, LeaderOk, OnLine, Ordered, Fold, Accepted, ReplaySafe;
    var n := Restart(c.nodes[p]);
    assert NodeInv(c.cfg, c.h, p, c.nodes[p]);
    LocalSteps.RestartNode(c.cfg, c.h, p, c.nodes[p]);
    assert StateOk(c.cfg, n);
  }

  /** A restarted node forgets nothing it stored: in every clean run, if what it knows
      committed can be applied, it ends between handlers as a follower with the same term,
      vote and log, everything committed applied, and the store of exactly that prefix. */
  lemma RestartReplays(cs: seq<World>, k: nat, p: Id)
    requires Run(cs) && k < |cs| && cs[k].h.clean && p in cs[k].cfg.peers && p in cs[k].nodes
    requires ReplaySafe(cs[k].nodes[p]) && Accepted(cs[k].nodes[p].log[..Restart(cs[k].nodes[p]).commit])
    ensures var n := cs[k].nodes[p]; var r := OnRestart(cs[k].cfg.codec, n);
            && r.phase == Idle && r.role == Follower && r.term == n.term && r.vote == n.vote && r.log == n.log
            && r.commit == r.applied == Min(Max(n.dcommit, n.snap), |n.log|)
            && r.stateIndex == Max(n.stateIndex, r.commit) <= |n.log| && r.state == Fold(n.log[..r.stateIndex])
  {
    hide Run, Inv, Ready, Fold, Settle, Ending, ReplaySafe, Accepted;
    InvariantHolds(cs, k);
    var n := Restart(cs[k].nodes[p]);
    RestartReady(cs[k], p);
    ReadyIndexes(n);
    SettleReady(cs[k].cfg.codec, n);
    SettleKeeps(cs[k].cfg.codec, n);
  }
}
