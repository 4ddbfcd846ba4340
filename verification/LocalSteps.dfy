/** Applying, persisting, compacting and restarting keep the invariant. */
module LocalSteps {
  import opened Commands
  import opened ExactlyOnce
  import opened Quorums
  import opened Cluster
  import opened Steps
  import opened Invariant
  import opened Growth
  import opened HistoryGrowth

  /** A step of one node that writes only its store, progress or snapshot. */
  lemma ProgressKept(cfg: Config, h: History, p: Id, n: Node, n': Node)
    requires NodeInv(cfg, h, p, n) && Indexes(n') && (h.clean ==> StateOk(cfg, n'))
    requires n' == n.(state := n'.state, stateIndex := n'.stateIndex, dcommit := n'.dcommit, applied := n'.applied,
                      snap := n'.snap, snapData := n'.snapData, phase := n'.phase)
    requires n'.snap == n.snap || n.snap < n'.snap <= n.commit
    ensures NodeInv(cfg, h, p, n')
  {
    hide Indexes, StateOk, Safe, AckOk, OnLine;
    if n.role == Leader {
      forall q | q in n'.matched ensures MatchOk(h, n', q) { assert MatchOk(h, n, q); }
    }
    assert LeaderOk(cfg, h, p, n');
    hide LeaderOk;
    assert AckOk(h, p, n') by { AckSameLog(h, p, n, n'); }
  }

  lemma AckSameLog(h: History, p: Id, n: Node, n': Node)
    requires AckOk(h, p, n) && n'.log == n.log && n'.term == n.term
    ensures AckOk(h, p, n')
  {}

  // ----- applying ---------------------------------------------------------------

  lemma ApplyState(cfg: Config, n: Node)
    requires Indexes(n) && StateOk(cfg, n) && n.phase == Applying && n.applied < n.commit
    requires Applicable(n.state, n.log[n.applied].command)
    ensures StateOk(cfg, ApplyOne(n))
  {
    hide Execute, Applicable, Judge, Fold, Accepted;
    var done := n.log[..n.stateIndex];
    if n.applied == n.stateIndex {
      FoldStep(n.log, n.applied);
    } else {
      assert done[n.applied] == n.log[n.applied];
      RepeatIsNoOp(done, n.applied);
    }
  }

  lemma ApplyNextKeeps(c: World, p: Id)
    requires Inv(c) && Enabled(c, ApplyNext(p))
    ensures Inv(Do(c, ApplyNext(p)))
  {
    hide HistInv, MsgInv, VoteOk, LogOk, AckOk, Safe, LeaderOk, ReadOk, BufferOk, StateOk, Accepted, Fold, Execute, Applicable;
    var n := c.nodes[p];
    assert NodeInv(c.cfg, c.h, p, n);
    if c.h.clean { ApplyState(c.cfg, n); }
    ProgressKept(c.cfg, c.h, p, n, ApplyOne(n));
    FrameStill(c, p, ApplyOne(n), {});
  }

  lemma PersistProgressKeeps(c: World, p: Id)
    requires Inv(c) && Enabled(c, PersistProgress(p))
    ensures Inv(Do(c, PersistProgress(p)))
  {
    hide HistInv, MsgInv, VoteOk, LogOk, AckOk, Safe, LeaderOk, ReadOk, BufferOk, Accepted, Fold;
    var n := c.nodes[p];
    assert NodeInv(c.cfg, c.h, p, n);
    ProgressKept(c.cfg, c.h, p, n, Persist(n));
    FrameStill(c, p, Persist(n), {});
  }

  // ----- compacting -------------------------------------------------------------

  /** Snapshot label correctness: whenever a snapshot is due, the store holds exactly the
      entries up to the commit index, although that index may have fallen earlier. */
  lemma SnapshotLabel(cfg: Config, n: Node)
    requires Indexes(n) && StateOk(cfg, n) && n.phase == Compacting && NeedsSnapshot(n)
    ensures n.applied == n.commit == n.stateIndex
    ensures n.state == Fold(n.log[..n.commit])
  {}

  lemma CompactLogKeeps(c: World, p: Id)
    requires Inv(c) && Enabled(c, CompactLog(p))
    ensures Inv(Do(c, CompactLog(p)))
  {
    hide HistInv, MsgInv, VoteOk, LogOk, AckOk, Safe, LeaderOk, ReadOk, BufferOk, Accepted, Fold;
    var n := c.nodes[p];
    assert NodeInv(c.cfg, c.h, p, n);
    if NeedsSnapshot(n) && c.h.clean { SnapshotLabel(c.cfg, n); }
    ProgressKept(c.cfg, c.h, p, n, Compact(c.cfg.codec, n));
    FrameStill(c, p, Compact(c.cfg.codec, n), {});
  }

  // ----- restarting -------------------------------------------------------------

  lemma RestartData(cfg: Config, n: Node)
    requires Indexes(n)
    ensures Indexes(Restart(n))
    ensures StateOk(cfg, n) && ReplaySafe(n) ==> StateOk(cfg, Restart(n))
  {}

  /** The store of a node whose stored commit index covers what it applied replays nothing. */
  lemma RestartReplaysNothing(n: Node)
    requires Indexes(n) && n.applied == n.stateIndex
    ensures n.applied <= Max(n.dcommit, n.snap) <==> Restart(n).applied == n.stateIndex
    ensures n.applied <= Max(n.dcommit, n.snap) ==> ReplaySafe(n)
  {}

  lemma RestartNode(cfg: Config, h: History, p: Id, n: Node)
    requires NodeInv(cfg, h, p, n)
    ensures NodeInv(cfg, NoteCrash(h, n), p, Restart(n))
  {
    hide StateOk, Safe, OnLine, ReplaySafe, AckOk, BufferOk, Indexes, Grows, Ours;
    var h', n' := NoteCrash(h, n), Restart(n);
    CrashGrows(h, n, p);
    RestartData(cfg, n);
    OnLineGrows(h, h', n.log);
    assert AckOk(h', p, n') by { AckSameHistory(h, h', p, n, n'); }
    assert Safe(h', n'.log, n'.high, n'.term) by { Indexed(n); SafeGrows(h, h', n.log, n.log, n.high, n.term, n.term); }
    assert BufferOk(cfg, h', n') by { EmptyBuffer(cfg, h', n'); }
  }

  lemma Indexed(n: Node)
    requires Indexes(n)
    ensures n.high <= |n.log|
  {}

  lemma EmptyBuffer(cfg: Config, h: History, n: Node)
    requires !n.incoming.active
    ensures BufferOk(cfg, h, n)
  {}

  lemma AckSameHistory(h: History, h': History, p: Id, n: Node, n': Node)
    requires AckOk(h, p, n) && h' == h.(clean := h'.clean) && n'.log == n.log && n'.term == n.term
    ensures AckOk(h', p, n')
  {
    forall t: nat, j: nat | (t, p) in h'.acks && j <= h'.acks[(t, p)] ensures Kept(h', n'.log, n'.term, t, j) {
      assert Kept(h, n.log, n.term, t, j);
      if !Holds(h, n.log, t, j) {
        var s :| s in h.won && t < s <= n.term && !Holds(h, h.won[s].log, t, j);
        assert !Holds(h', h'.won[s].log, t, j);
      }
    }
  }

  lemma CrashGrows(h: History, n: Node, p: Id)
    ensures Grows(h, NoteCrash(h, n)) && Ours(h, NoteCrash(h, n), p)
  {}

  lemma CrashHistory(cfg: Config, h: History, n: Node, p: Id)
    requires HistInv(cfg, h)
    ensures Grows(h, NoteCrash(h, n)) && Ours(h, NoteCrash(h, n), p)
    ensures HistInv(cfg, NoteCrash(h, n))
  {
    hide Lines, VotersKept, Candidacies, Ballots, Elections, Commits, Captures, Grows, Ours;
    hide CandidacyOk, BallotOk, WonBy, CommitOk, CaptureOk;
    var h' := NoteCrash(h, n);
    CrashGrows(h, n, p);
    LinesKept(h, h');
    VotersKeptGrow(h, h');
    HistExtends(cfg, h, h');
  }

  lemma CrashKeeps(c: World, p: Id)
    requires Inv(c) && Enabled(c, Crash(p))
    ensures Inv(Do(c, Crash(p)))
  {
    hide HistInv, MsgInv, NodeInv, Grows, Ours, ReplaySafe;
    RestartNode(c.cfg, c.h, p, c.nodes[p]);
    CrashHistory(c.cfg, c.h, c.nodes[p], p);
    Frame(c, p, Restart(c.nodes[p]), {}, NoteCrash(c.h, c.nodes[p]));
  }
}

/** ReadIndex keeps the invariant. */
module ReadSteps {
  import opened Commands
  import opened Quorums
  import opened Cluster
  import opened Steps
  import opened Invariant
  import opened Growth
  import opened HistoryGrowth
  import opened ReplicationSteps

  lemma ReadGrows(cfg: Config, h: History, p: Id, n: Node, nodes: map<Id, Node>, id: nat)
    requires LeaderOk(cfg, h, p, n) && n.role == Leader && id > n.lastRead
    ensures Grows(h, NoteRead(h, nodes, n, id)) && Ours(h, NoteRead(h, nodes, n, id), p)
    ensures (n.term, id) !in h.captures
  {}

  /** Whoever voted in a term has reached it. */
  lemma VotersPassed(cfg: Config, h: History, nodes: map<Id, Node>, s: nat, q: Id)
    requires Elections(cfg, h) && nodes.Keys == cfg.peers && s in h.won && q in h.won[s].voters
    requires forall r :: r in nodes ==> VoteOk(cfg, h, r, nodes[r])
    ensures q in nodes && s <= nodes[q].term
  {
    assert WonBy(cfg, h, s);
    assert VoteOk(cfg, h, q, nodes[q]) && (s, q) in h.ballots;
  }

  lemma CommitTermsWon(cfg: Config, h: History)
    requires Commits(cfg, h) && Lines(h)
    ensures forall s, i :: (s, i) in h.commits ==> s in h.won
  {
    forall s, i | (s, i) in h.commits ensures s in h.won { assert CommitOk(cfg, h, s, i); }
  }

  lemma ReadItems(cfg: Config, h: History, p: Id, n: Node, nodes: map<Id, Node>, id: nat)
    requires LeaderOk(cfg, h, p, n) && n.role == Leader && id > n.lastRead
    requires Elections(cfg, h) && Commits(cfg, h) && Lines(h) && nodes.Keys == cfg.peers
    requires forall q :: q in nodes ==> VoteOk(cfg, h, q, nodes[q])
    ensures NewItemsOk(cfg, h, NoteRead(h, nodes, n, id))
  {
    hide Elections, Commits, Lines, VoteOk;
    var h' := NoteRead(h, nodes, n, id);
    var k := h'.captures[(n.term, id)];
    forall s, q | s in k.won && q in h'.won[s].voters ensures q in k.terms && s <= k.terms[q] {
      VotersPassed(cfg, h, nodes, s, q);
    }
    CommitTermsWon(cfg, h);
    assert CaptureOk(cfg, h', n.term, id);
  }

  lemma ReadHistory(cfg: Config, h: History, p: Id, n: Node, nodes: map<Id, Node>, id: nat)
    requires HistInv(cfg, h) && LeaderOk(cfg, h, p, n) && n.role == Leader && id > n.lastRead && nodes.Keys == cfg.peers
    requires forall q :: q in nodes ==> VoteOk(cfg, h, q, nodes[q])
    ensures HistInv(cfg, NoteRead(h, nodes, n, id))
    ensures Grows(h, NoteRead(h, nodes, n, id)) && Ours(h, NoteRead(h, nodes, n, id), p)
  {
    hide VotersKept, Candidacies, Ballots, Elections, Commits, Captures, Lines, LeaderOk, NewItemsOk, Grows, Ours, VoteOk;
    ReadGrows(cfg, h, p, n, nodes, id);
    ReadItems(cfg, h, p, n, nodes, id);
    LinesKept(h, NoteRead(h, nodes, n, id));
    CommitVoters(h, NoteRead(h, nodes, n, id));
    HistExtends(cfg, h, NoteRead(h, nodes, n, id));
  }

  lemma ReadLeader(cfg: Config, h: History, p: Id, n: Node, nodes: map<Id, Node>, id: nat)
    requires LeaderOk(cfg, h, p, n) && VoteOk(cfg, h, p, n) && n.role == Leader && id > n.lastRead
    requires p in nodes && nodes[p] == n && p in cfg.peers
    ensures LeaderOk(cfg, NoteRead(h, nodes, n, id), p, OpenRead(p, n, id))
    ensures VoteOk(cfg, NoteRead(h, nodes, n, id), p, OpenRead(p, n, id))
    ensures ReadOk(cfg, NoteRead(h, nodes, n, id), p, OpenRead(p, n, id))
  {
    var h', n' := NoteRead(h, nodes, n, id), OpenRead(p, n, id);
    forall q | q in n'.matched ensures MatchOk(h', n', q) { assert MatchOk(h, n, q); }
  }

  lemma ReadNode(cfg: Config, h: History, p: Id, n: Node, nodes: map<Id, Node>, id: nat)
    requires NodeInv(cfg, h, p, n) && AcksFit(h) && n.role == Leader && id > n.lastRead
    requires p in nodes && nodes[p] == n && p in cfg.peers
    ensures NodeInv(cfg, NoteRead(h, nodes, n, id), p, OpenRead(p, n, id))
  {
    hide Indexes, StateOk, LogOk, VoteOk, AckOk, Safe, LeaderOk, ReadOk, BufferOk, Grows, Ours, AcksFit;
    ReadGrows(cfg, h, p, n, nodes, id);
    ReadLeader(cfg, h, p, n, nodes, id);
    AcksSame(h, NoteRead(h, nodes, n, id), p, n, OpenRead(p, n, id));
    DataKept(cfg, h, NoteRead(h, nodes, n, id), p, n, OpenRead(p, n, id));
  }

  lemma ReadTerms(nodes: map<Id, Node>, h: History, n: Node, id: nat)
    requires TermsPassed(nodes, h.captures)
    ensures TermsPassed(nodes, NoteRead(h, nodes, n, id).captures)
  {}

  lemma StartReadKeeps(c: World, p: Id, id: nat)
    requires Inv(c) && Enabled(c, StartRead(p, id))
    ensures Inv(Do(c, StartRead(p, id)))
  {
    hide HistInv, Indexes, StateOk, LogOk, VoteOk, AckOk, Safe, LeaderOk, ReadOk, BufferOk, MsgInv, Grows, Ours, TermsPassed;
    var n := c.nodes[p];
    assert NodeInv(c.cfg, c.h, p, n);
    ReadHistory(c.cfg, c.h, p, n, c.nodes, id);
    HistAcksFit(c.cfg, c.h);
    ReadNode(c.cfg, c.h, p, n, c.nodes, id);
    ReadTerms(c.nodes, c.h, n, id);
    Frame(c, p, OpenRead(p, n, id), {}, NoteRead(c.h, c.nodes, n, id));
  }

  lemma AskReadKeeps(c: World, p: Id, q: Id)
    requires Inv(c) && Enabled(c, AskRead(p, q))
    ensures Inv(Do(c, AskRead(p, q)))
  {
    hide HistInv, Indexes, StateOk, LogOk, VoteOk, AckOk, Safe, LeaderOk, BufferOk;
    var n := c.nodes[p];
    assert NodeInv(c.cfg, c.h, p, n);
    FrameStill(c, p, n, {ReadReq(p, q, n.term, n.read.value.id)});
  }

  lemma ReadReply(c: World, p: Id, m: Msg)
    requires Inv(c) && p in c.cfg.peers && m.ReadReq? && m in c.net
    ensures MsgInv(c.cfg, c.h, ReadResp(p, m.src, c.nodes[p].term, m.term == c.nodes[p].term, m.id))
  {
    hide NodeInv, Lines, Candidacies, Ballots, Elections, VotersKept, Commits, AcksFit;
    assert MsgInv(c.cfg, c.h, m);
    assert CaptureOk(c.cfg, c.h, m.term, m.id);
  }

  lemma AnswerReadKeeps(c: World, p: Id, m: Msg)
    requires Inv(c) && Enabled(c, AnswerRead(p, m))
    ensures Inv(Do(c, AnswerRead(p, m)))
  {
    hide HistInv, NodeInv, MsgInv, TermsPassed;
    var n := c.nodes[p];
    ReadReply(c, p, m);
    FrameStill(c, p, n, {ReadResp(p, m.src, n.term, m.term == n.term, m.id)});
  }

  lemma ReadOnly(cfg: Config, h: History, p: Id, n: Node, n': Node)
    requires NodeInv(cfg, h, p, n) && AcksFit(h) && n' == n.(read := n'.read) && ReadOk(cfg, h, p, n')
    ensures NodeInv(cfg, h, p, n')
  {
    if n.role == Leader {
      forall q | q in n'.matched ensures MatchOk(h, n', q) { assert MatchOk(h, n, q); }
    }
    assert LeaderOk(cfg, h, p, n');
    hide LeaderOk, ReadOk;
    Still(h, p);
    AcksSame(h, h, p, n, n');
    DataKept(cfg, h, h, p, n, n');
  }

  lemma AckReadKeeps(c: World, p: Id, m: Msg)
    requires Inv(c) && Enabled(c, AckRead(p, m))
    ensures Inv(Do(c, AckRead(p, m)))
  {
    hide HistInv, Indexes, StateOk, LogOk, VoteOk, AckOk, Safe, LeaderOk, BufferOk;
    var n := c.nodes[p];
    var n' := n.(read := Some(n.read.value.(acks := n.read.value.acks + {m.src})));
    assert NodeInv(c.cfg, c.h, p, n) && MsgInv(c.cfg, c.h, m);
    assert ReadOk(c.cfg, c.h, p, n');
    hide MsgInv, ReadOk;
    HistAcksFit(c.cfg, c.h);
    ReadOnly(c.cfg, c.h, p, n, n');
    FrameStill(c, p, n', {});
  }

  lemma FinishReadKeeps(c: World, p: Id)
    requires Inv(c) && Enabled(c, FinishRead(p))
    ensures Inv(Do(c, FinishRead(p)))
  {
    hide HistInv, NodeInv, MsgInv, TermsPassed, AcksFit, Lines;
    var n := c.nodes[p];
    HistAcksFit(c.cfg, c.h);
    ReadOnly(c.cfg, c.h, p, n, n.(read := None));
    FrameStill(c, p, n.(read := None), {});
  }
}
