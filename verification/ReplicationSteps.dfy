/** Replication and commitment keep the invariant. */
module ReplicationSteps {
  import opened Commands
  import opened Quorums
  import opened Cluster
  import opened Steps
  import opened Invariant
  import opened Growth
  import opened HistoryGrowth
  import opened Completeness

  // ----- accepting a command ----------------------------------------------------

  lemma LineGrows(cfg: Config, h: History, p: Id, n: Node, command: Command)
    requires LeaderOk(cfg, h, p, n) && n.role == Leader
    ensures Grows(h, NoteLine(h, p, Extend(n, command))) && Ours(h, NoteLine(h, p, Extend(n, command)), p)
  {}

  lemma OwnLineExtends(h: History, h': History, t: nat, e: Entry)
    requires Grows(h, h') && t in h.won && t in h.lines && LineOk(h, t)
    requires e.term == t && h'.lines[t] == h.lines[t] + [e]
    requires TermsWithin(h.lines[t], t)
    ensures LineOk(h', t)
  {
    var line, line' := h.lines[t], h'.lines[t];
    forall i | 0 <= i < |line'| ensures line'[i].term in h'.lines && line'[..i + 1] <= h'.lines[line'[i].term] {
      if i < |line| {
        assert line'[..i + 1] == line[..i + 1] <= h.lines[line[i].term];
        assert h.lines[line[i].term] <= h'.lines[line[i].term];
      }
    }
  }

  lemma LinesExtend(h: History, h': History, t: nat, e: Entry)
    requires Grows(h, h') && Lines(h) && h'.won == h.won && t in h.won
    requires e.term == t && h'.lines == h.lines[t := h.lines[t] + [e]] && TermsWithin(h.lines[t], t)
    ensures Lines(h')
  {
    hide Grows, LineOk, TermsWithin;
    forall s | s in h'.won ensures LineOk(h', s) {
      if s == t { OwnLineExtends(h, h', t, e); } else { LineKept(h, h', s); }
    }
  }

  lemma LineLines(cfg: Config, h: History, p: Id, n: Node, command: Command)
    requires LeaderOk(cfg, h, p, n) && n.role == Leader && Lines(h) && LogOk(h, n)
    ensures Lines(NoteLine(h, p, Extend(n, command)))
  {
    LineGrows(cfg, h, p, n, command);
    hide Grows, Lines;
    LinesExtend(h, NoteLine(h, p, Extend(n, command)), n.term, Entry(n.term, command));
  }

  lemma LineVotersKept(cfg: Config, h: History, p: Id, n: Node, command: Command)
    requires LeaderOk(cfg, h, p, n) && n.role == Leader && VoteOk(cfg, h, p, n) && AcksFit(h) && VotersKept(h)
    ensures VotersKept(NoteLine(h, p, Extend(n, command))) && AcksFit(NoteLine(h, p, Extend(n, command)))
  {
    LineGrows(cfg, h, p, n, command);
    VotersKeptGrow(h, NoteLine(h, p, Extend(n, command)));
  }

  lemma LineHistory(cfg: Config, h: History, p: Id, n: Node, command: Command)
    requires HistInv(cfg, h) && LeaderOk(cfg, h, p, n) && n.role == Leader && VoteOk(cfg, h, p, n) && LogOk(h, n)
    ensures HistInv(cfg, NoteLine(h, p, Extend(n, command)))
  {
    hide VotersKept, Candidacies, Ballots, Elections, Commits, Captures, Lines, AcksFit;
    hide LogOk, VoteOk, LeaderOk, Grows;
    LineGrows(cfg, h, p, n, command);
    LineLines(cfg, h, p, n, command);
    LineVotersKept(cfg, h, p, n, command);
    HistExtends(cfg, h, NoteLine(h, p, Extend(n, command)));
  }

  lemma ExtendAcks(cfg: Config, h: History, p: Id, n: Node, command: Command)
    requires LeaderOk(cfg, h, p, n) && n.role == Leader && AckOk(h, p, n) && AcksFit(h)
    ensures AckOk(NoteLine(h, p, Extend(n, command)), p, Extend(n, command))
  {
    LineGrows(cfg, h, p, n, command);
    AcksKept(h, NoteLine(h, p, Extend(n, command)), p, n, Extend(n, command));
  }

  lemma ExtendOnLine(h: History, log: seq<Entry>)
    requires log != [] && LastTerm(log) in h.lines && h.lines[LastTerm(log)] == log
    ensures OnLine(h, log)
  {}

  lemma ExtendMatch(cfg: Config, h: History, p: Id, n: Node, command: Command)
    requires LeaderOk(cfg, h, p, n) && n.role == Leader
    ensures forall q :: q in n.matched ==> MatchOk(NoteLine(h, p, Extend(n, command)), Extend(n, command), q)
  {
    forall q | q in n.matched ensures MatchOk(NoteLine(h, p, Extend(n, command)), Extend(n, command), q) {
      assert MatchOk(h, n, q) && q != p;
    }
  }

  lemma ExtendLeader(cfg: Config, h: History, p: Id, n: Node, command: Command)
    requires LeaderOk(cfg, h, p, n) && n.role == Leader && VoteOk(cfg, h, p, n) && ReadOk(cfg, h, p, n) && LogOk(h, n)
    requires n.snap <= |n.log| && Lines(h)
    ensures LeaderOk(cfg, NoteLine(h, p, Extend(n, command)), p, Extend(n, command))
    ensures VoteOk(cfg, NoteLine(h, p, Extend(n, command)), p, Extend(n, command))
    ensures ReadOk(cfg, NoteLine(h, p, Extend(n, command)), p, Extend(n, command))
    ensures LogOk(NoteLine(h, p, Extend(n, command)), Extend(n, command))
  {
    hide OnLine;
    var h', n' := NoteLine(h, p, Extend(n, command)), Extend(n, command);
    ExtendMatch(cfg, h, p, n, command);
    LeaderTerm(cfg, h, p, n);
    assert OnLine(h', n'.log) by { ExtendOnLine(h', n'.log); }
    hide MatchOk;
    assert TermOf(n'.log, n.snap) == TermOf(n.log, n.snap);
  }

  lemma ExtendState(cfg: Config, n: Node, n': Node)
    requires Indexes(n) && n.log <= n'.log && n' == n.(log := n'.log)
    ensures Indexes(n')
    ensures StateOk(cfg, n) ==> StateOk(cfg, n')
  {
    assert n'.log[..n.stateIndex] == n.log[..n.stateIndex];
    assert n'.log[..n.snap] == n.log[..n.snap];
  }

  lemma ExtendNode(cfg: Config, h: History, p: Id, n: Node, command: Command)
    requires NodeInv(cfg, h, p, n) && n.role == Leader && HistInv(cfg, h)
    ensures NodeInv(cfg, NoteLine(h, p, Extend(n, command)), p, Extend(n, command))
  {
    hide StateOk, LogOk, VoteOk, AckOk, Safe, LeaderOk, ReadOk, BufferOk, Grows;
    hide VotersKept, Candidacies, Ballots, Elections, Commits, Captures, Lines, AcksFit;
    var h', n' := NoteLine(h, p, Extend(n, command)), Extend(n, command);
    LineGrows(cfg, h, p, n, command);
    ExtendAcks(cfg, h, p, n, command);
    ExtendLeader(cfg, h, p, n, command);
    ExtendState(cfg, n, n');
    SafeGrows(h, h', n.log, n'.log, n.high, n.term, n.term);
    BufferFrame(cfg, h, h', n);
    assert BufferOk(cfg, h', n') by { BufferSame(cfg, h', n, n'); }
  }

  lemma BufferSame(cfg: Config, h: History, n: Node, n': Node)
    requires BufferOk(cfg, h, n) && n'.incoming == n.incoming
    ensures BufferOk(cfg, h, n')
  {}

  lemma SubmitKeeps(c: World, p: Id, command: Command)
    requires Inv(c) && Enabled(c, Submit(p, command))
    ensures Inv(Do(c, Submit(p, command)))
  {
    hide HistInv, VoteOk, LogOk, Indexes, StateOk, AckOk, Safe, LeaderOk, ReadOk, BufferOk, MsgInv, Grows, Ours;
    var n := c.nodes[p];
    assert NodeInv(c.cfg, c.h, p, n);
    LineHistory(c.cfg, c.h, p, n, command);
    LineGrows(c.cfg, c.h, p, n, command);
    ExtendNode(c.cfg, c.h, p, n, command);
    Frame(c, p, Extend(n, command), {}, NoteLine(c.h, p, Extend(n, command)));
  }

  // ----- sending entries --------------------------------------------------------

  /** The commit bound on the wire: a request never announces a commit index beyond the
      entries it vouches for, because fewer than eight committed entries lie above the
      snapshot and a request carries up to sixty-four. */
  lemma CommitBound(p: Id, n: Node, q: Id, next: nat)
    requires Indexes(n) && n.phase == Idle && n.snap < next <= |n.log| + 1
    ensures var m := AppendMsg(p, n, q, next); m.commit <= m.prev + |m.entries|
  {}

  lemma SendAppendKeeps(c: World, p: Id, q: Id, next: nat)
    requires Inv(c) && Enabled(c, SendAppend(p, q, next))
    ensures Inv(Do(c, SendAppend(p, q, next)))
  {
    hide HistInv, VoteOk, LogOk, StateOk, AckOk, Safe, ReadOk, BufferOk;
    var n := c.nodes[p];
    var m := AppendMsg(p, n, q, next);
    assert NodeInv(c.cfg, c.h, p, n);
    CommitBound(p, n, q, next);
    SafeShorter(c.h, n.log, n.high, n.commit, n.term);
    assert m.entries == c.h.lines[n.term][m.prev..m.prev + |m.entries|];
    assert MsgInv(c.cfg, c.h, m);
    hide MsgInv, LeaderOk, Indexes;
    FrameStill(c, p, n, {m});
  }

  // ----- taking entries ---------------------------------------------------------

  /** What a follower's log becomes when its leader vouches for `upto`: the log itself if
      it already contains that prefix, the prefix otherwise. */
  function Merge(log: seq<Entry>, upto: seq<Entry>): seq<Entry> {
    if upto <= log then log else upto
  }

  /** Where the terms agree, the entries agree. */
  ghost predicate TermsDecide(log: seq<Entry>, line: seq<Entry>) {
    forall i :: 0 <= i < |log| && i < |line| && log[i].term == line[i].term ==> log[i] == line[i]
  }

  ghost predicate AgreeTo(log: seq<Entry>, line: seq<Entry>, k: nat) {
    forall i :: 0 <= i < k && i < |log| && i < |line| ==> log[i].term == line[i].term
  }

  /** The entry loop, which compares terms one index at a time, computes Merge, and never
      meets a conflict at a committed index. */
  lemma {:induction false} AbsorbIsMerge(log: seq<Entry>, line: seq<Entry>, at: nat, k: nat, commit: nat)
    requires at <= k <= |line| && at <= |log| && log[..at] == line[..at]
    requires TermsDecide(log, line) && AgreeTo(log, line, commit)
    ensures Absorb(log, at, line[at..k], commit) == Some(Merge(log, line[..k]))
    decreases k - at
  {
    if at == k {
      assert line[at..k] == [] && line[..k] <= log;
    } else {
      assert line[at..k][0] == line[at] && line[at..k][1..] == line[at + 1..k];
      if at < |log| && log[at].term == line[at].term {
        assert log[..at + 1] == line[..at + 1];
        AbsorbIsMerge(log, line, at + 1, k, commit);
      } else {
        var cut := log[..at] + [line[at]];
        assert cut == line[..at + 1];
        AbsorbIsMerge(cut, line, at + 1, k, commit);
        assert !(line[..k] <= log) by { assert line[..k][at] == line[at]; }
      }
    }
  }

  /** Whatever the log and the line have in common survives the merge. */
  lemma MergeKeeps(log: seq<Entry>, line: seq<Entry>, k: nat, kept: seq<Entry>)
    requires k <= |line| && kept <= log && kept <= line
    ensures kept <= Merge(log, line[..k]) && line[..k] <= Merge(log, line[..k])
  {
    if k <= |kept| { assert line[..k] == kept[..k]; }
  }

  lemma MergedLogOk(h: History, n: Node, k: nat)
    requires Lines(h) && LogOk(h, n) && n.term in h.lines && k <= |h.lines[n.term]|
    ensures LogOk(h, n.(log := Merge(n.log, h.lines[n.term][..k])))
  {
    LineIsOnLine(h, n.term, k);
    assert LineOk(h, n.term);
    LineTerms(h, n.term);
  }

  lemma LineTerms(h: History, t: nat)
    requires Lines(h) && t in h.lines
    ensures TermsWithin(h.lines[t], t)
  {
    assert LineOk(h, t);
    forall i | 0 <= i < |h.lines[t]| ensures 1 <= h.lines[t][i].term <= t {
      if i < |h.won[t].log| { assert h.won[t].log[i] == h.lines[t][i]; }
    }
  }

  lemma MergedKept(h: History, p: Id, n: Node, k: nat, t: nat, j: nat)
    requires AcksFit(h) && Lines(h) && AckOk(h, p, n) && n.term in h.lines && k <= |h.lines[n.term]|
    requires (t, p) in h.acks && j <= h.acks[(t, p)]
    ensures Kept(h, Merge(n.log, h.lines[n.term][..k]), n.term, t, j)
  {
    assert Kept(h, n.log, n.term, t, j);
    var line := h.lines[n.term];
    if Holds(h, n.log, t, j) {
      assert LineOk(h, n.term);
      if t == n.term {
        MergeKeeps(n.log, line, k, h.lines[t][..j]);
      } else if Holds(h, h.won[n.term].log, t, j) {
        MergeKeeps(n.log, line, k, h.lines[t][..j]);
      } else {
        assert n.term in h.won && t < n.term;
        assert Lost(h, t, j, n.term);
      }
    }
  }

  // ----- acknowledging ----------------------------------------------------------

  lemma AckGrows(h: History, p: Id, t: nat, k: nat)
    ensures Grows(h, NoteAck(h, t, p, k)) && Ours(h, NoteAck(h, t, p, k), p)
  {}

  lemma AckHistory(cfg: Config, h: History, p: Id, n: Node, k: nat)
    requires HistInv(cfg, h) && VoteOk(cfg, h, p, n) && n.term in h.lines && k <= |h.lines[n.term]|
    ensures HistInv(cfg, NoteAck(h, n.term, p, k))
    ensures Grows(h, NoteAck(h, n.term, p, k)) && Ours(h, NoteAck(h, n.term, p, k), p)
  {
    hide Candidacies, Ballots, Elections, Commits, Captures, Lines, VotersKept;
    AckGrows(h, p, n.term, k);
    AckVotersKept(cfg, h, p, n, k);
    hide Grows, VoteOk;
    LinesKept(h, NoteAck(h, n.term, p, k));
    HistExtends(cfg, h, NoteAck(h, n.term, p, k));
  }

  lemma AckVotersKept(cfg: Config, h: History, p: Id, n: Node, k: nat)
    requires VoteOk(cfg, h, p, n) && AcksFit(h) && VotersKept(h)
    ensures VotersKept(NoteAck(h, n.term, p, k))
  {
    AckGrows(h, p, n.term, k);
    VotersKeptGrow(h, NoteAck(h, n.term, p, k));
  }

  lemma MergeHolds(h: History, log: seq<Entry>, t: nat, k: nat, j: nat)
    requires t in h.lines && j <= k <= |h.lines[t]|
    ensures Holds(h, Merge(log, h.lines[t][..k]), t, j)
  {
    assert h.lines[t][..j] == h.lines[t][..k][..j];
  }

  lemma MergedAcks(h: History, p: Id, n: Node, n': Node, k: nat)
    requires AcksFit(h) && Lines(h) && AckOk(h, p, n) && n.term in h.lines && k <= |h.lines[n.term]|
    requires n'.term == n.term && n'.log == Merge(n.log, h.lines[n.term][..k])
    ensures AckOk(NoteAck(h, n.term, p, k), p, n')
  {
    hide Lines, Merge, Grows, Ours, Holds, Lost;
    var h' := NoteAck(h, n.term, p, k);
    AckGrows(h, p, n.term, k);
    forall t: nat, j: nat | (t, p) in h'.acks && j <= h'.acks[(t, p)]
      ensures Kept(h', n'.log, n'.term, t, j)
    {
      if (t, p) in h.acks && j <= h.acks[(t, p)] {
        MergedKept(h, p, n, k, t, j);
        assert (t, p).0 in h.lines;
        HoldsGrows(h, h', n'.log, t, j);
        if !Holds(h, n'.log, t, j) { LostGrows(h, h', t, j, n.term, n.term); }
      } else {
        MergeHolds(h', n.log, t, k, j);
      }
    }
  }

  // ----- the follower's answer --------------------------------------------------

  lemma LogDecides(h: History, log: seq<Entry>, t: nat)
    requires Lines(h) && OnLine(h, log) && t in h.lines
    ensures TermsDecide(log, h.lines[t])
  {
    var line := h.lines[t];
    LineIsOnLine(h, t, |line|);
    assert line[..|line|] == line;
    hide Lines, OnLine;
    forall i | 0 <= i < |log| && i < |line| && log[i].term == line[i].term ensures log[i] == line[i] {
      LogMatching(h, log, line, i);
      assert log[..i + 1][i] == line[..i + 1][i];
    }
  }

  lemma SamePrefix(h: History, log: seq<Entry>, t: nat, i: nat)
    requires Lines(h) && OnLine(h, log) && t in h.lines && i <= |log| && i <= |h.lines[t]|
    requires TermOf(log, i) == TermOf(h.lines[t], i)
    ensures log[..i] == h.lines[t][..i]
  {
    var line := h.lines[t];
    if i > 0 {
      LineIsOnLine(h, t, |line|);
      assert line[..|line|] == line;
      LogMatching(h, log, line, i - 1);
    }
  }

  /** A request the consistency check accepts merges the leader's line into the log. */
  lemma MergedIsMerge(cfg: Config, h: History, n: Node, m: Msg)
    requires HistInv(cfg, h) && LogOk(h, n) && Safe(h, n.log, n.high, n.term) && n.commit <= n.high
    requires m.AppendReq? && MsgInv(cfg, h, m) && m.term == n.term && Consistent(n, m)
    ensures Merged(n, m) == Some(Merge(n.log, h.lines[n.term][..m.prev + |m.entries|]))
  {
    hide VotersKept, Candidacies, Ballots, Elections, Commits, Captures, Safe, Lines, OnLine, AcksFit;
    var line := h.lines[n.term];
    SafeOnLaterLine(cfg, h, n.log, n.high, n.term, n.term);
    LogDecides(h, n.log, n.term);
    SamePrefix(h, n.log, n.term, m.prev);
    assert forall i :: 0 <= i < n.commit ==> n.log[..n.high][i] == line[i];
    AbsorbIsMerge(n.log, line, m.prev, m.prev + |m.entries|, n.commit);
  }

  lemma AppendState(cfg: Config, n: Node, m: Msg, log: seq<Entry>)
    requires Indexes(n) && n.phase == Idle && m.AppendReq?
    requires n.log[..n.high] <= log && m.commit <= |log|
    ensures Indexes(AppendOk(n, m, log))
    ensures StateOk(cfg, n) ==> StateOk(cfg, AppendOk(n, m, log))
  {
    assert forall k :: 0 <= k <= n.high ==> log[..k] == n.log[..n.high][..k] == n.log[..k];
    assert forall j :: 0 <= j < n.high ==> log[j] == n.log[..n.high][j];
  }

  lemma AppendSafe(h: History, n: Node, m: Msg, log: seq<Entry>)
    requires Safe(h, n.log, n.high, n.term) && n.high <= |n.log| && n.log[..n.high] <= log
    requires m.AppendReq? && n.term in h.lines && m.commit <= |log| && m.commit <= |h.lines[n.term]|
    requires Safe(h, h.lines[n.term], m.commit, n.term) && h.lines[n.term][..m.commit] <= log
    ensures Safe(h, log, AppendOk(n, m, log).high, n.term)
  {
    Still(h, 0);
    SafeGrows(h, h, n.log, log, n.high, n.term, n.term);
    SafeGrows(h, h, h.lines[n.term], log, m.commit, n.term, n.term);
  }

  lemma TakenNode(cfg: Config, h: History, p: Id, n: Node, m: Msg, k: nat, log: seq<Entry>)
    requires HistInv(cfg, h) && NodeInv(cfg, h, p, n) && n.phase == Idle && n.role == Follower
    requires m.AppendReq? && MsgInv(cfg, h, m) && m.term == n.term && k == m.prev + |m.entries|
    requires log == Merge(n.log, h.lines[n.term][..k])
    ensures NodeInv(cfg, NoteAck(h, n.term, p, k), p, AppendOk(n, m, log))
  {
    hide VotersKept, Candidacies, Ballots, Elections, Commits, Captures, Lines, AcksFit;
    hide StateOk, LogOk, VoteOk, AckOk, Safe, LeaderOk, ReadOk, BufferOk, Grows, Ours, OnLine;
    var h', n', line := NoteAck(h, n.term, p, k), AppendOk(n, m, log), h.lines[n.term];
    SafeOnLaterLine(cfg, h, n.log, n.high, n.term, n.term);
    MergeKeeps(n.log, line, k, n.log[..n.high]);
    assert line[..m.commit] == line[..k][..m.commit];
    AppendState(cfg, n, m, log);
    AppendSafe(h, n, m, log);
    MergedLogOk(h, n, k);
    MergedAcks(h, p, n, n', k);
    AckGrows(h, p, n.term, k);
    SafeGrows(h, h', log, log, n'.high, n.term, n.term);
    AppendRest(cfg, h, h', p, n, n');
  }

  /** A follower that changed only log and indexes keeps its other obligations. */
  lemma AppendRest(cfg: Config, h: History, h': History, p: Id, n: Node, n': Node)
    requires n.role == Follower && n'.role == Follower && n'.term == n.term && n'.vote == n.vote
    requires n'.read == n.read && n'.incoming == n.incoming
    requires h' == h.(acks := h'.acks)
    requires VoteOk(cfg, h, p, n) && ReadOk(cfg, h, p, n) && BufferOk(cfg, h, n)
    requires LogOk(h, n.(log := n'.log))
    ensures VoteOk(cfg, h', p, n') && ReadOk(cfg, h', p, n') && BufferOk(cfg, h', n')
    ensures LeaderOk(cfg, h', p, n') && LogOk(h', n')
  {}

  lemma TakenKeeps(c: World, p: Id, m: Msg)
    requires Inv(c) && p in c.nodes && c.nodes[p].phase == Idle && c.nodes[p].role == Follower
    requires m in c.net && m.AppendReq? && Takes(c.nodes[p], m) && p in c.cfg.peers
    ensures var n, k := c.nodes[p], m.prev + |m.entries|;
            Inv(Moved(c, p, AppendOk(n, m, Merged(n, m).value), {AppendResp(p, m.src, n.term, true, k)},
                      NoteAck(c.h, n.term, p, k)))
  {
    hide HistInv, VoteOk, LogOk, StateOk, AckOk, Safe, LeaderOk, ReadOk, BufferOk, Grows, Ours, Moved;
    var n, k := c.nodes[p], m.prev + |m.entries|;
    assert NodeInv(c.cfg, c.h, p, n) && MsgInv(c.cfg, c.h, m);
    MergedIsMerge(c.cfg, c.h, n, m);
    AckHistory(c.cfg, c.h, p, n, k);
    TakenNode(c.cfg, c.h, p, n, m, k, Merged(n, m).value);
    Frame(c, p, AppendOk(n, m, Merged(n, m).value), {AppendResp(p, m.src, n.term, true, k)}, NoteAck(c.h, n.term, p, k));
  }

  lemma AnswerAppendKeeps(c: World, p: Id, m: Msg)
    requires Inv(c) && Enabled(c, AnswerAppend(p, m))
    ensures Inv(Do(c, AnswerAppend(p, m)))
  {
    hide HistInv, NodeInv, MsgInv, Merged, AppendOk, NoteAck;
    var n := c.nodes[p];
    if Takes(n, m) {
      hide Inv;
      TakenKeeps(c, p, m);
    } else {
      RefusalOk(c.cfg, c.h, p, n, m);
      FrameStill(c, p, n, {AppendReply(p, n, m)});
    }
  }

  lemma RefusalOk(cfg: Config, h: History, p: Id, n: Node, m: Msg)
    requires p in cfg.peers && m.AppendReq? && !Takes(n, m)
    ensures MsgInv(cfg, h, AppendReply(p, n, m))
  {
    hide Takes;
  }

  // ----- the leader's bookkeeping -----------------------------------------------

  /** Recording a match index that is covered by an acknowledgement or by the snapshot. */
  lemma RecordMatch(cfg: Config, h: History, p: Id, n: Node, q: Id, index: nat)
    requires NodeInv(cfg, h, p, n) && AcksFit(h) && n.role == Leader && q in cfg.peers && q != p
    requires index <= n.snap || ((n.term, q) in h.acks && index <= h.acks[(n.term, q)])
    ensures NodeInv(cfg, h, p, n.(matched := n.matched[q := index]))
  {
    var n' := n.(matched := n.matched[q := index]);
    forall r | r in n'.matched ensures MatchOk(h, n', r) {
      if r != q { assert MatchOk(h, n, r); }
    }
    assert LeaderOk(cfg, h, p, n');
    hide LeaderOk;
    Still(h, p);
    AcksSame(h, h, p, n, n');
    DataKept(cfg, h, h, p, n, n');
  }

  lemma AckAppendKeeps(c: World, p: Id, m: Msg)
    requires Inv(c) && Enabled(c, AckAppend(p, m))
    ensures Inv(Do(c, AckAppend(p, m)))
  {
    hide NodeInv;
    var n := c.nodes[p];
    assert MsgInv(c.cfg, c.h, m);
    RecordMatch(c.cfg, c.h, p, n, m.src, Min(m.match_, |n.log|));
    hide MsgInv;
    FrameStill(c, p, n.(matched := n.matched[m.src := Min(m.match_, |n.log|)]), {});
  }

  lemma AckSnapshotKeeps(c: World, p: Id, m: Msg)
    requires Inv(c) && Enabled(c, AckSnapshot(p, m))
    ensures Inv(Do(c, AckSnapshot(p, m)))
  {
    hide NodeInv;
    var n := c.nodes[p];
    assert MsgInv(c.cfg, c.h, m);
    RecordMatch(c.cfg, c.h, p, n, m.src, n.snap);
    hide MsgInv;
    FrameStill(c, p, n.(matched := n.matched[m.src := n.snap]), {});
  }

  // ----- committing -------------------------------------------------------------

  /** Match-index soundness: everyone counted for an eligible index has stored the leader's
      entries through it, whatever responses the match indexes came from. */
  lemma HoldersHold(cfg: Config, h: History, p: Id, n: Node, index: nat)
    requires LeaderOk(cfg, h, p, n) && n.role == Leader && p in cfg.peers && n.term >= 1
    requires n.commit < index <= |n.log| && TermAt(n, index) == n.term
    ensures Holders(p, n, index) <= cfg.peers
    ensures forall q :: q in Holders(p, n, index) ==> (n.term, q) in h.acks && index <= h.acks[(n.term, q)]
  {
    forall q | q in Holders(p, n, index) ensures (n.term, q) in h.acks && index <= h.acks[(n.term, q)] {
      if q != p { assert MatchOk(h, n, q); }
    }
  }

  lemma CommitGrows(cfg: Config, h: History, p: Id, n: Node, index: nat)
    requires LeaderOk(cfg, h, p, n) && n.role == Leader && n.commit < index
    ensures Grows(h, NoteCommit(h, p, n, index)) && Ours(h, NoteCommit(h, p, n, index), p)
  {
    assert (n.term, index) !in h.commits;
  }

  lemma CommitItems(cfg: Config, h: History, p: Id, n: Node, index: nat)
    requires LeaderOk(cfg, h, p, n) && n.role == Leader && p in cfg.peers && n.term >= 1
    requires n.commit < index <= |n.log| && TermAt(n, index) == n.term
    requires |Holders(p, n, index)| > |cfg.peers| / 2
    ensures NewItemsOk(cfg, h, NoteCommit(h, p, n, index))
  {
    HoldersHold(cfg, h, p, n, index);
  }

  lemma LeaderTerm(cfg: Config, h: History, p: Id, n: Node)
    requires LeaderOk(cfg, h, p, n) && n.role == Leader && Lines(h)
    ensures n.term >= 1
  {
    assert LineOk(h, n.term);
  }

  lemma CommitHistory(cfg: Config, h: History, p: Id, n: Node, index: nat)
    requires HistInv(cfg, h) && LeaderOk(cfg, h, p, n) && n.role == Leader && p in cfg.peers
    requires n.commit < index <= |n.log| && TermAt(n, index) == n.term
    requires |Holders(p, n, index)| > |cfg.peers| / 2
    ensures HistInv(cfg, NoteCommit(h, p, n, index))
    ensures Grows(h, NoteCommit(h, p, n, index)) && Ours(h, NoteCommit(h, p, n, index), p)
  {
    hide VotersKept, Candidacies, Ballots, Elections, Commits, Captures, Lines, LeaderOk, NewItemsOk, Grows, Ours;
    LeaderTerm(cfg, h, p, n);
    CommitGrows(cfg, h, p, n, index);
    CommitItems(cfg, h, p, n, index);
    LinesKept(h, NoteCommit(h, p, n, index));
    CommitVoters(h, NoteCommit(h, p, n, index));
    HistExtends(cfg, h, NoteCommit(h, p, n, index));
  }

  lemma CommitVoters(h: History, h': History)
    requires AcksFit(h) && VotersKept(h) && Grows(h, h')
    requires h'.acks == h.acks && h'.ballots == h.ballots
    ensures VotersKept(h')
  {
    VotersKeptGrow(h, h');
  }

  lemma CommitLeader(cfg: Config, h: History, p: Id, n: Node, index: nat)
    requires LeaderOk(cfg, h, p, n) && VoteOk(cfg, h, p, n) && ReadOk(cfg, h, p, n) && n.role == Leader
    requires n.commit < index
    ensures LeaderOk(cfg, NoteCommit(h, p, n, index), p, CommitTo(n, index))
    ensures VoteOk(cfg, NoteCommit(h, p, n, index), p, CommitTo(n, index))
    ensures ReadOk(cfg, NoteCommit(h, p, n, index), p, CommitTo(n, index))
  {
    var h', n' := NoteCommit(h, p, n, index), CommitTo(n, index);
    forall q | q in n'.matched ensures MatchOk(h', n', q) { assert MatchOk(h, n, q); }
  }

  lemma CommitSafe(cfg: Config, h: History, p: Id, n: Node, index: nat)
    requires LeaderOk(cfg, h, p, n) && n.role == Leader && n.commit < index <= |n.log|
    requires Safe(h, n.log, n.high, n.term) && n.high <= |n.log|
    ensures Safe(NoteCommit(h, p, n, index), n.log, CommitTo(n, index).high, n.term)
  {
    var h' := NoteCommit(h, p, n, index);
    if n.high < index {
      assert SafeBy(h', n.log, index, n.term, n.term, index);
    } else {
      CommitGrows(cfg, h, p, n, index);
      SafeGrows(h, h', n.log, n.log, n.high, n.term, n.term);
    }
  }

  lemma CommitNode(cfg: Config, h: History, p: Id, n: Node, index: nat)
    requires NodeInv(cfg, h, p, n) && AcksFit(h) && n.role == Leader && n.phase == Idle
    requires n.commit < index <= |n.log|
    ensures NodeInv(cfg, NoteCommit(h, p, n, index), p, CommitTo(n, index))
  {
    hide StateOk, LogOk, VoteOk, AckOk, Safe, LeaderOk, ReadOk, BufferOk, Grows, Ours, AcksFit, OnLine;
    var h', n' := NoteCommit(h, p, n, index), CommitTo(n, index);
    CommitGrows(cfg, h, p, n, index);
    CommitLeader(cfg, h, p, n, index);
    CommitSafe(cfg, h, p, n, index);
    AcksSame(h, h', p, n, n');
    BufferFrame(cfg, h, h', n);
    BufferSame(cfg, h', n, n');
    SameState(cfg, n, n');
    assert LogOk(h', n') by { SameLog(h, h', n, n'); }
  }

  lemma SameState(cfg: Config, n: Node, n': Node)
    requires n.applied <= n.stateIndex <= |n.log| && n.snap <= |n.log|
    requires n' == n.(commit := n'.commit, high := n'.high, phase := n'.phase, dcommit := n'.dcommit)
    ensures StateOk(cfg, n) ==> StateOk(cfg, n')
  {}

  lemma SameLog(h: History, h': History, n: Node, n': Node)
    requires Grows(h, h') && LogOk(h, n) && n'.log == n.log && n.term <= n'.term
    ensures LogOk(h', n')
  {
    OnLineGrows(h, h', n.log);
  }

  lemma AdvanceKeeps(c: World, p: Id, index: nat)
    requires Inv(c) && Enabled(c, Advance(p, index))
    ensures Inv(Do(c, Advance(p, index)))
  {
    hide HistInv, VoteOk, LogOk, Indexes, StateOk, AckOk, Safe, LeaderOk, ReadOk, BufferOk, MsgInv, Grows, Ours;
    var n := c.nodes[p];
    assert NodeInv(c.cfg, c.h, p, n);
    CommitHistory(c.cfg, c.h, p, n, index);
    assert AcksFit(c.h) by { HistAcksFit(c.cfg, c.h); }
    CommitNode(c.cfg, c.h, p, n, index);
    Frame(c, p, CommitTo(n, index), {}, NoteCommit(c.h, p, n, index));
  }

  lemma HistAcksFit(cfg: Config, h: History)
    requires HistInv(cfg, h)
    ensures AcksFit(h) && Lines(h)
  {}
}
