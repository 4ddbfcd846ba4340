/** Elections keep the invariant. */
module ElectionSteps {
  import opened Commands
  import opened Quorums
  import opened Cluster
  import opened Steps
  import opened Invariant
  import opened Growth
  import opened HistoryGrowth
  import opened Completeness

  // ----- becoming a candidate ---------------------------------------------------

  lemma CampaignGrows(cfg: Config, h: History, p: Id, n: Node)
    requires VoteOk(cfg, h, p, n)
    ensures Grows(h, NoteCampaign(h, p, n)) && Ours(h, NoteCampaign(h, p, n), p)
    ensures (n.term + 1, p) !in h.ballots && (n.term + 1, p) !in h.candidacy
  {}

  lemma CampaignVotersKept(cfg: Config, h: History, p: Id, n: Node)
    requires VoteOk(cfg, h, p, n) && AckOk(h, p, n) && AcksFit(h) && VotersKept(h)
    ensures VotersKept(NoteCampaign(h, p, n))
  {
    var h' := NoteCampaign(h, p, n);
    CampaignGrows(cfg, h, p, n);
    forall s: nat, u: nat, q, j: nat |
        (s, q) in h'.acks && (u, q) in h'.ballots && s < u && j <= h'.acks[(s, q)] &&
        !((s, q) in h.acks && j <= h.acks[(s, q)] && (u, q) in h.ballots)
      ensures VoterKept(h', s, u, q, j)
    {
      assert u == n.term + 1 && q == p && Kept(h, n.log, n.term, s, j);
      assert (s, q).0 in h.lines && j <= |h.lines[s]|;
      HoldsGrows(h, h', n.log, s, j);
      if !Holds(h, n.log, s, j) { LostGrows(h, h', s, j, n.term, n.term); }
    }
    VotersKeptGrow(h, h');
  }

  lemma CampaignItems(cfg: Config, h: History, p: Id, n: Node)
    requires p in cfg.peers && VoteOk(cfg, h, p, n) && LogOk(h, n)
    ensures NewItemsOk(cfg, h, NoteCampaign(h, p, n))
  {
    CampaignGrows(cfg, h, p, n);
    OnLineGrows(h, NoteCampaign(h, p, n), n.log);
  }

  lemma CampaignHistory(cfg: Config, h: History, p: Id, n: Node)
    requires HistInv(cfg, h) && p in cfg.peers && VoteOk(cfg, h, p, n) && AckOk(h, p, n) && LogOk(h, n)
    ensures HistInv(cfg, NoteCampaign(h, p, n))
    ensures Grows(h, NoteCampaign(h, p, n)) && Ours(h, NoteCampaign(h, p, n), p)
  {
    hide VotersKept, Candidacies, Ballots, Elections, Commits, Captures, Lines;
    hide VoteOk, AckOk, LogOk, Grows, Ours, NewItemsOk;
    CampaignGrows(cfg, h, p, n);
    CampaignItems(cfg, h, p, n);
    CampaignVotersKept(cfg, h, p, n);
    LinesKept(h, NoteCampaign(h, p, n));
    HistExtends(cfg, h, NoteCampaign(h, p, n));
  }

  lemma CampaignVote(cfg: Config, h: History, p: Id, n: Node)
    requires VoteOk(cfg, h, p, n) && ReadOk(cfg, h, p, n) && p in cfg.peers && n.role != Leader
    ensures VoteOk(cfg, NoteCampaign(h, p, n), p, Campaign(p, n))
    ensures LeaderOk(cfg, NoteCampaign(h, p, n), p, Campaign(p, n))
    ensures ReadOk(cfg, NoteCampaign(h, p, n), p, Campaign(p, n))
  {}

  lemma CampaignNode(cfg: Config, h: History, p: Id, n: Node)
    requires NodeInv(cfg, h, p, n) && AcksFit(h) && p in cfg.peers && n.role != Leader
    ensures NodeInv(cfg, NoteCampaign(h, p, n), p, Campaign(p, n))
  {
    hide Indexes, StateOk, LogOk, VoteOk, AckOk, Safe, LeaderOk, ReadOk, BufferOk, Grows, AcksFit;
    CampaignGrows(cfg, h, p, n);
    CampaignVote(cfg, h, p, n);
    AcksSame(h, NoteCampaign(h, p, n), p, n, Campaign(p, n));
    DataKept(cfg, h, NoteCampaign(h, p, n), p, n, Campaign(p, n));
  }

  lemma TimeoutKeeps(c: World, p: Id)
    requires Inv(c) && Enabled(c, Timeout(p))
    ensures Inv(Do(c, Timeout(p)))
  {
    var n := c.nodes[p];
    CampaignHistory(c.cfg, c.h, p, n);
    CampaignNode(c.cfg, c.h, p, n);
    Frame(c, p, Campaign(p, n), {}, NoteCampaign(c.h, p, n));
  }

  lemma AskVoteKeeps(c: World, p: Id, q: Id)
    requires Inv(c) && Enabled(c, AskVote(p, q))
    ensures Inv(Do(c, AskVote(p, q)))
  {
    hide HistInv, Indexes, StateOk, LogOk, AckOk, Safe, LeaderOk, ReadOk, BufferOk;
    var n := c.nodes[p];
    assert NodeInv(c.cfg, c.h, p, n);
    FrameStill(c, p, n, {VoteReq(p, q, n.term, |n.log|, LastTerm(n.log))});
  }

  // ----- learning a newer term --------------------------------------------------

  lemma StepDownVote(cfg: Config, h: History, p: Id, n: Node, term: nat)
    requires VoteOk(cfg, h, p, n) && term >= n.term
    ensures VoteOk(cfg, h, p, StepDown(n, term)) && LeaderOk(cfg, h, p, StepDown(n, term))
    ensures ReadOk(cfg, h, p, StepDown(n, term))
  {}

  lemma StepDownNode(cfg: Config, h: History, p: Id, n: Node, term: nat)
    requires NodeInv(cfg, h, p, n) && AcksFit(h) && term >= n.term
    ensures NodeInv(cfg, h, p, StepDown(n, term))
  {
    hide Indexes, StateOk, LogOk, VoteOk, AckOk, Safe, LeaderOk, ReadOk, BufferOk, Grows, Ours, AcksFit;
    StepDownVote(cfg, h, p, n, term);
    Still(h, p);
    AcksSame(h, h, p, n, StepDown(n, term));
    DataKept(cfg, h, h, p, n, StepDown(n, term));
  }

  lemma ObserveKeeps(c: World, p: Id, m: Msg)
    requires Inv(c) && Enabled(c, Observe(p, m))
    ensures Inv(Do(c, Observe(p, m)))
  {
    hide NodeInv, MsgInv, Lines, Candidacies, Ballots, Elections, VotersKept, Commits, Captures, TermsPassed;
    StepDownNode(c.cfg, c.h, p, c.nodes[p], m.term);
    FrameStill(c, p, StepDown(c.nodes[p], m.term), {});
  }

  // ----- voting -----------------------------------------------------------------

  lemma BallotGrows(cfg: Config, h: History, p: Id, n: Node, candidate: Id)
    requires VoteOk(cfg, h, p, n) && n.vote == None
    ensures Grows(h, NoteBallot(h, p, n, candidate)) && Ours(h, NoteBallot(h, p, n, candidate), p)
    ensures (n.term, p) !in h.ballots
  {}

  /** A vote cast in a term already won is not one of the winner's. */
  lemma LateVote(cfg: Config, h: History, p: Id, n: Node)
    requires Elections(cfg, h) && (n.term, p) !in h.ballots && n.term in h.won
    ensures p !in h.won[n.term].voters
  {
    assert WonBy(cfg, h, n.term);
  }

  lemma LostBefore(h: History, s: nat, j: nat, u: nat)
    requires Lost(h, s, j, u) && u !in h.won
    ensures u >= 1 && Lost(h, s, j, u - 1)
  {
    var w: nat :| w in h.won && s < w <= u && !Holds(h, h.won[w].log, s, j);
  }

  lemma BallotVotersKept(cfg: Config, h: History, p: Id, n: Node, candidate: Id)
    requires VoteOk(cfg, h, p, n) && n.vote == None
    requires AckOk(h, p, n) && AcksFit(h) && VotersKept(h) && Elections(cfg, h)
    ensures VotersKept(NoteBallot(h, p, n, candidate))
  {
    hide Elections, VotersKept, Holds, Lost, Grows;
    var h' := NoteBallot(h, p, n, candidate);
    BallotGrows(cfg, h, p, n, candidate);
    forall s: nat, u: nat, q, j: nat |
        (s, q) in h'.acks && (u, q) in h'.ballots && s < u && j <= h'.acks[(s, q)] &&
        !((s, q) in h.acks && j <= h.acks[(s, q)] && (u, q) in h.ballots)
      ensures VoterKept(h', s, u, q, j)
    {
      assert u == n.term && q == p && Kept(h, n.log, n.term, s, j);
      assert (s, q).0 in h.lines && j <= |h.lines[s]|;
      HoldsGrows(h, h', n.log, s, j);
      if u in h.won {
        LateVote(cfg, h, p, n);
      } else if !Holds(h, n.log, s, j) {
        LostBefore(h, s, j, u);
        LostGrows(h, h', s, j, u - 1, u - 1);
      }
    }
    VotersKeptGrow(h, h');
  }

  lemma BallotItems(cfg: Config, h: History, p: Id, n: Node, m: Msg)
    requires p in cfg.peers && VoteOk(cfg, h, p, n) && LogOk(h, n) && n.vote == None
    requires m.VoteReq? && MsgInv(cfg, h, m) && Grants(n, m)
    ensures NewItemsOk(cfg, h, NoteBallot(h, p, n, m.src))
  {
    BallotGrows(cfg, h, p, n, m.src);
    OnLineGrows(h, NoteBallot(h, p, n, m.src), n.log);
  }

  lemma BallotHistory(cfg: Config, h: History, p: Id, n: Node, m: Msg)
    requires HistInv(cfg, h) && p in cfg.peers
    requires VoteOk(cfg, h, p, n) && AckOk(h, p, n) && LogOk(h, n) && n.vote == None
    requires m.VoteReq? && MsgInv(cfg, h, m) && Grants(n, m)
    ensures HistInv(cfg, NoteBallot(h, p, n, m.src))
    ensures Grows(h, NoteBallot(h, p, n, m.src)) && Ours(h, NoteBallot(h, p, n, m.src), p)
  {
    hide VotersKept, Candidacies, Ballots, Elections, Commits, Captures, Lines;
    hide VoteOk, AckOk, LogOk, Grows, Ours, NewItemsOk, MsgInv, Grants;
    BallotGrows(cfg, h, p, n, m.src);
    BallotItems(cfg, h, p, n, m);
    BallotVotersKept(cfg, h, p, n, m.src);
    LinesKept(h, NoteBallot(h, p, n, m.src));
    HistExtends(cfg, h, NoteBallot(h, p, n, m.src));
  }

  lemma BallotVote(cfg: Config, h: History, p: Id, n: Node, candidate: Id)
    requires VoteOk(cfg, h, p, n) && LeaderOk(cfg, h, p, n) && ReadOk(cfg, h, p, n) && n.vote == None
    ensures VoteOk(cfg, NoteBallot(h, p, n, candidate), p, n.(vote := Some(candidate)))
    ensures LeaderOk(cfg, NoteBallot(h, p, n, candidate), p, n.(vote := Some(candidate)))
    ensures ReadOk(cfg, NoteBallot(h, p, n, candidate), p, n.(vote := Some(candidate)))
  {
    var h', n' := NoteBallot(h, p, n, candidate), n.(vote := Some(candidate));
    forall q | q in n.matched && n.role == Leader ensures MatchOk(h', n', q) { assert MatchOk(h, n, q); }
  }

  lemma BallotNode(cfg: Config, h: History, p: Id, n: Node, candidate: Id)
    requires NodeInv(cfg, h, p, n) && AcksFit(h) && n.vote == None
    ensures NodeInv(cfg, NoteBallot(h, p, n, candidate), p, n.(vote := Some(candidate)))
  {
    hide Indexes, StateOk, LogOk, VoteOk, AckOk, Safe, LeaderOk, ReadOk, BufferOk, Grows, AcksFit;
    var h', n' := NoteBallot(h, p, n, candidate), n.(vote := Some(candidate));
    BallotGrows(cfg, h, p, n, candidate);
    BallotVote(cfg, h, p, n, candidate);
    AcksSame(h, h', p, n, n');
    DataKept(cfg, h, h', p, n, n');
  }

  lemma VoteReply(cfg: Config, h: History, p: Id, n: Node, m: Msg)
    requires p in cfg.peers && VoteOk(cfg, h, p, n) && m.VoteReq?
    requires Grants(n, m) ==> n.vote.Some?
    ensures MsgInv(cfg, h, VoteResp(p, m.src, n.term, Grants(n, m)))
  {}

  lemma AnswerVoteKeeps(c: World, p: Id, m: Msg)
    requires Inv(c) && Enabled(c, AnswerVote(p, m))
    ensures Inv(Do(c, AnswerVote(p, m)))
  {
    hide VoteOk, AckOk, LogOk, StateOk, Indexes, Safe, LeaderOk, ReadOk, BufferOk, Grows, Ours, Grants, MsgInv;
    hide Lines, Candidacies, Ballots, Elections, VotersKept, Commits, Captures;
    var n := c.nodes[p];
    var reply := VoteResp(p, m.src, n.term, Grants(n, m));
    assert NodeInv(c.cfg, c.h, p, n) && MsgInv(c.cfg, c.h, m);
    if Grants(n, m) && n.vote == None {
      BallotHistory(c.cfg, c.h, p, n, m);
      BallotNode(c.cfg, c.h, p, n, m.src);
      BallotReply(c.cfg, c.h, p, n, m);
      Frame(c, p, n.(vote := Some(m.src)), {reply}, NoteBallot(c.h, p, n, m.src));
    } else {
      VoteReply(c.cfg, c.h, p, n, m);
      FrameStill(c, p, n, {reply});
    }
  }

  lemma BallotReply(cfg: Config, h: History, p: Id, n: Node, m: Msg)
    requires p in cfg.peers && m.VoteReq? && Grants(n, m)
    ensures MsgInv(cfg, NoteBallot(h, p, n, m.src), VoteResp(p, m.src, n.term, Grants(n, m)))
  {}

  lemma CountVoteNode(cfg: Config, h: History, p: Id, n: Node, m: Msg)
    requires NodeInv(cfg, h, p, n) && AcksFit(h) && MsgInv(cfg, h, m)
    requires m.VoteResp? && m.granted && m.dst == p && n.role == Candidate && m.term == n.term
    ensures NodeInv(cfg, h, p, n.(granted := n.granted + {m.src}))
  {
    var n' := n.(granted := n.granted + {m.src});
    assert VoteOk(cfg, h, p, n') && LeaderOk(cfg, h, p, n') && ReadOk(cfg, h, p, n');
    hide VoteOk, LeaderOk, ReadOk;
    Still(h, p);
    AcksSame(h, h, p, n, n');
    DataKept(cfg, h, h, p, n, n');
  }

  lemma CountVoteKeeps(c: World, p: Id, m: Msg)
    requires Inv(c) && Enabled(c, CountVote(p, m))
    ensures Inv(Do(c, CountVote(p, m)))
  {
    hide NodeInv, MsgInv;
    CountVoteNode(c.cfg, c.h, p, c.nodes[p], m);
    FrameStill(c, p, c.nodes[p].(granted := c.nodes[p].granted + {m.src}), {});
  }

  // ----- winning ----------------------------------------------------------------

  /** Election safety: a candidate with a majority is the first winner of its term. */
  lemma TermNotWonBefore(cfg: Config, h: History, p: Id, n: Node)
    requires Elections(cfg, h) && VoteOk(cfg, h, p, n) && n.role == Candidate
    requires |n.granted| >= |cfg.peers| / 2 + 1
    ensures n.term !in h.won
  {
    if n.term in h.won {
      assert WonBy(cfg, h, n.term);
      var x := Overlap(n.granted, h.won[n.term].voters, cfg.peers);
      assert false;
    }
  }

  lemma WinGrows(h: History, p: Id, n: Node)
    requires n.term !in h.won && Lines(h) && AcksFit(h)
    ensures Grows(h, NoteWin(h, p, n)) && Ours(h, NoteWin(h, p, n), p)
    ensures forall q :: (n.term, q) !in h.acks
  {
    forall q ensures (n.term, q) !in h.acks {
      assert (n.term, q) in h.acks ==> (n.term, q).0 in h.lines;
    }
  }

  lemma WonLine(cfg: Config, h: History, p: Id, n: Node, h': History)
    requires Lines(h) && Grows(h, h') && LogOk(h, n) && n.term >= 1 && TermsWithin(n.log, n.term - 1)
    requires n.term in h'.won && h'.won[n.term].log == n.log && n.term in h'.lines && h'.lines[n.term] == n.log
    ensures LineOk(h', n.term)
  {
    hide Lines, OnLine;
    forall i | 0 <= i < |n.log|
      ensures n.log[i].term in h'.lines && n.log[..i + 1] <= h'.lines[n.log[i].term]
    {
      OwnLine(h, n.log, i);
      assert h.lines[n.log[i].term] <= h'.lines[n.log[i].term];
    }
  }

  lemma WinLines(cfg: Config, h: History, p: Id, n: Node)
    requires n.term !in h.won && Lines(h) && AcksFit(h) && Candidacies(cfg, h)
    requires VoteOk(cfg, h, p, n) && LogOk(h, n) && n.role == Candidate
    ensures Lines(NoteWin(h, p, n))
  {
    hide LineOk, Grows, Ours, LogOk, AcksFit;
    var h' := NoteWin(h, p, n);
    WinGrows(h, p, n);
    assert CandidacyOk(cfg, h, (n.term, p));
    forall t | t in h'.won ensures LineOk(h', t) {
      if t == n.term { WonLine(cfg, h, p, n, h'); } else { LineKept(h, h', t); }
    }
  }

  lemma WinVotersKept(cfg: Config, h: History, p: Id, n: Node)
    requires n.term !in h.won && Lines(h) && AcksFit(h) && VotersKept(h) && VoteOk(cfg, h, p, n)
    ensures VotersKept(NoteWin(h, p, n))
  {
    WinGrows(h, p, n);
    VotersKeptGrow(h, NoteWin(h, p, n));
  }

  lemma WinItems(cfg: Config, h: History, p: Id, n: Node)
    requires p in cfg.peers && n.role == Candidate && VoteOk(cfg, h, p, n)
    requires |n.granted| >= |cfg.peers| / 2 + 1
    ensures NewItemsOk(cfg, h, NoteWin(h, p, n))
  {}

  lemma WinHistory(cfg: Config, h: History, p: Id, n: Node)
    requires HistInv(cfg, h) && p in cfg.peers && n.role == Candidate
    requires VoteOk(cfg, h, p, n) && LogOk(h, n) && |n.granted| >= |cfg.peers| / 2 + 1
    ensures HistInv(cfg, NoteWin(h, p, n)) && n.term !in h.won
    ensures Grows(h, NoteWin(h, p, n)) && Ours(h, NoteWin(h, p, n), p)
  {
    hide VotersKept, Candidacies, Ballots, Elections, Commits, Captures, Lines;
    hide LogOk, VoteOk, Grows, Ours, NewItemsOk;
    TermNotWonBefore(cfg, h, p, n);
    WinGrows(h, p, n);
    WinItems(cfg, h, p, n);
    WinLines(cfg, h, p, n);
    WinVotersKept(cfg, h, p, n);
    HistExtends(cfg, h, NoteWin(h, p, n));
  }

  lemma WinAcks(h: History, p: Id, n: Node, n': Node)
    requires n.term !in h.won && Lines(h) && AcksFit(h) && AckOk(h, p, n)
    requires n'.log == n.log && n'.term == n.term
    ensures AckOk(NoteWin(h, p, n), p, n')
  {
    WinGrows(h, p, n);
    AcksKept(h, NoteWin(h, p, n), p, n, n');
  }

  lemma WinLeader(cfg: Config, h: History, p: Id, n: Node)
    requires VoteOk(cfg, h, p, n) && ReadOk(cfg, h, p, n) && n.role == Candidate && n.term !in h.won
    requires Lines(h) && Candidacies(cfg, h) && Commits(cfg, h) && Captures(cfg, h)
    ensures VoteOk(cfg, NoteWin(h, p, n), p, Promote(p, n, cfg.peers))
    ensures LeaderOk(cfg, NoteWin(h, p, n), p, Promote(p, n, cfg.peers))
    ensures ReadOk(cfg, NoteWin(h, p, n), p, Promote(p, n, cfg.peers))
  {
    var h', n' := NoteWin(h, p, n), Promote(p, n, cfg.peers);
    assert CandidacyOk(cfg, h, (n.term, p));
    assert forall i: nat :: (n.term, i) !in h.commits;
    assert forall id: nat :: (n.term, id) !in h.captures;
  }

  lemma WinNode(cfg: Config, h: History, p: Id, n: Node)
    requires NodeInv(cfg, h, p, n) && n.role == Candidate && n.term !in h.won
    requires HistInv(cfg, h)
    ensures NodeInv(cfg, NoteWin(h, p, n), p, Promote(p, n, cfg.peers))
  {
    hide Indexes, StateOk, LogOk, VoteOk, AckOk, Safe, LeaderOk, ReadOk, BufferOk, Grows;
    hide VotersKept, Candidacies, Ballots, Elections, Commits, Captures, Lines, AcksFit;
    WinGrows(h, p, n);
    WinAcks(h, p, n, Promote(p, n, cfg.peers));
    WinLeader(cfg, h, p, n);
    DataKept(cfg, h, NoteWin(h, p, n), p, n, Promote(p, n, cfg.peers));
  }

  lemma WinKeeps(c: World, p: Id)
    requires Inv(c) && Enabled(c, Win(p))
    ensures Inv(Do(c, Win(p)))
  {
    hide HistInv, VoteOk, LogOk, Indexes, StateOk, AckOk, Safe, LeaderOk, ReadOk, BufferOk, MsgInv;
    var n := c.nodes[p];
    assert NodeInv(c.cfg, c.h, p, n);
    WinHistory(c.cfg, c.h, p, n);
    WinNode(c.cfg, c.h, p, n);
    Frame(c, p, Promote(p, n, c.cfg.peers), {}, NoteWin(c.h, p, n));
  }
}
