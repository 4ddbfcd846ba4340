/** What holds in every run: the invariant, and the properties Raft is used for, stated on
    the nodes of two arbitrary moments. */
module Safety {
  import opened Commands
  import opened Quorums
  import opened Cluster
  import opened Steps
  import opened Invariant
  import opened Growth
  import opened Completeness
  import opened ElectionSteps
  import opened ReplicationSteps
  import opened SnapshotSteps
  import opened LocalSteps
  import opened ReadSteps

  // ----- the invariant ----------------------------------------------------------

  lemma InitOk(c: World)
    requires Init(c)
    ensures Inv(c)
  {
    var h := NO_HISTORY;
    assert HistInv(c.cfg, h);
    forall p | p in c.nodes ensures NodeInv(c.cfg, h, p, c.nodes[p]) {
      assert FRESH_NODE.log[..0] == [];
    }
  }

  lemma StepKeeps(c: World, s: Step)
    requires Inv(c) && Enabled(c, s)
    ensures Inv(Do(c, s))
  {
    hide Inv, Enabled, Do;
    match s
    case Timeout(p) => TimeoutKeeps(c, p);
    case AskVote(p, q) => AskVoteKeeps(c, p, q);
    case Observe(p, m) => ObserveKeeps(c, p, m);
    case AnswerVote(p, m) => AnswerVoteKeeps(c, p, m);
    case CountVote(p, m) => CountVoteKeeps(c, p, m);
    case Win(p) => WinKeeps(c, p);
    case Submit(p, command) => SubmitKeeps(c, p, command);
    case SendAppend(p, q, next) => SendAppendKeeps(c, p, q, next);
    case AnswerAppend(p, m) => AnswerAppendKeeps(c, p, m);
    case AckAppend(p, m) => AckAppendKeeps(c, p, m);
    case Advance(p, index) => AdvanceKeeps(c, p, index);
    case SendSnapshot(p, q, offset) => SendSnapshotKeeps(c, p, q, offset);
    case AnswerSnapshot(p, m) => AnswerSnapshotKeeps(c, p, m);
    case AckSnapshot(p, m) => AckSnapshotKeeps(c, p, m);
    case ApplyNext(p) => ApplyNextKeeps(c, p);
    case PersistProgress(p) => PersistProgressKeeps(c, p);
    case CompactLog(p) => CompactLogKeeps(c, p);
    case Crash(p) => CrashKeeps(c, p);
    case StartRead(p, id) => StartReadKeeps(c, p, id);
    case AskRead(p, q) => AskReadKeeps(c, p, q);
    case AnswerRead(p, m) => AnswerReadKeeps(c, p, m);
    case AckRead(p, m) => AckReadKeeps(c, p, m);
    case FinishRead(p) => FinishReadKeeps(c, p);
  }

  /** Every state of every run satisfies the invariant. */
  lemma {:induction false} InvariantHolds(cs: seq<World>, k: nat)
    requires Run(cs) && k < |cs|
    ensures Inv(cs[k])
  {
    hide Inv, Init, Enabled, Do;
    if k == 0 {
      InitOk(cs[0]);
    } else {
      InvariantHolds(cs, k - 1);
      assert Next(cs[k - 1], cs[k]);
      var s :| Enabled(cs[k - 1], s) && cs[k] == Do(cs[k - 1], s);
      StepKeeps(cs[k - 1], s);
    }
  }

  // ----- history grows along a run ----------------------------------------------

  lemma WinStepGrows(c: World, p: Id)
    requires Inv(c) && Enabled(c, Win(p))
    ensures Grows(c.h, NoteWin(c.h, p, c.nodes[p]))
  {
    hide Indexes, StateOk, AckOk, Safe, LeaderOk, ReadOk, BufferOk, MsgInv, HistInv, VoteOk, LogOk, Grows;
    assert NodeInv(c.cfg, c.h, p, c.nodes[p]);
    WinHistory(c.cfg, c.h, p, c.nodes[p]);
  }

  lemma VoteStepGrows(c: World, p: Id, m: Msg)
    requires Inv(c) && Enabled(c, AnswerVote(p, m))
    ensures Grows(c.h, Trace(c, AnswerVote(p, m)))
  {
    hide Indexes, StateOk, AckOk, Safe, LeaderOk, ReadOk, BufferOk, MsgInv, HistInv, VoteOk, LogOk, Grows, Grants;
    var n := c.nodes[p];
    assert NodeInv(c.cfg, c.h, p, n);
    Still(c.h, p);
    if Grants(n, m) && n.vote == None { BallotGrows(c.cfg, c.h, p, n, m.src); }
  }

  lemma NodeStepGrows(c: World, s: Step)
    requires Inv(c) && Enabled(c, s)
    requires s.Timeout? || s.Submit? || s.Advance? || s.StartRead?
    ensures Grows(c.h, Do(c, s).h)
  {
    hide Indexes, StateOk, AckOk, Safe, LeaderOk, ReadOk, BufferOk, MsgInv, HistInv, VoteOk, LogOk, Grows;
    var n := c.nodes[s.p];
    assert NodeInv(c.cfg, c.h, s.p, n);
    match s
    case Timeout(p) => CampaignGrows(c.cfg, c.h, p, n);
    case Submit(p, command) => LineGrows(c.cfg, c.h, p, n, command);
    case Advance(p, index) => CommitGrows(c.cfg, c.h, p, n, index);
    case StartRead(p, id) => ReadGrows(c.cfg, c.h, p, n, c.nodes, id);
  }

  lemma StepGrows(c: World, s: Step)
    requires Inv(c) && Enabled(c, s)
    ensures Grows(c.h, Do(c, s).h) && Do(c, s).cfg == c.cfg
  {
    hide Inv, Grows, ChunkNode, ChunkReply, Merged, AppendOk, Promote, Campaign, StepDown, Compact, Restart;
    Still(c.h, s.p);
    match s
    case Win(p) => WinStepGrows(c, p);
    case AnswerVote(p, m) => VoteStepGrows(c, p, m);
    case Timeout(_) => NodeStepGrows(c, s);
    case Submit(_, _) => NodeStepGrows(c, s);
    case Advance(_, _) => NodeStepGrows(c, s);
    case StartRead(_, _) => NodeStepGrows(c, s);
    case AnswerAppend(p, m) => AckGrows(c.h, p, c.nodes[p].term, m.prev + |m.entries|);
    case AnswerSnapshot(p, m) => AckGrows(c.h, p, c.nodes[p].term, m.index);
    case Crash(p) => CrashGrows(c.h, c.nodes[p], p);
    case _ =>
  }

  lemma GrowsTrans(a: History, b: History, c: History)
    requires Grows(a, b) && Grows(b, c)
    ensures Grows(a, c)
  {
    forall t | t in a.lines ensures t in c.lines && a.lines[t] <= c.lines[t] {
      assert a.lines[t] <= b.lines[t] <= c.lines[t];
    }
  }

  lemma {:induction false} RunGrows(cs: seq<World>, j: nat, k: nat)
    requires Run(cs) && j <= k < |cs|
    ensures Grows(cs[j].h, cs[k].h) && cs[j].cfg == cs[k].cfg
    decreases k
  {
    hide Grows, Inv, Init, Enabled, Do;
    Still(cs[j].h, 0);
    if j < k {
      RunGrows(cs, j, k - 1);
      InvariantHolds(cs, k - 1);
      assert Next(cs[k - 1], cs[k]);
      var s :| Enabled(cs[k - 1], s) && cs[k] == Do(cs[k - 1], s);
      StepGrows(cs[k - 1], s);
      GrowsTrans(cs[j].h, cs[k - 1].h, cs[k].h);
    }
  }

  // ----- election safety --------------------------------------------------------

  lemma LeaderWon(c: World, p: Id)
    requires Inv(c) && p in c.nodes && c.nodes[p].role == Leader
    ensures c.nodes[p].term in c.h.won && c.h.won[c.nodes[p].term].leader == p
    ensures c.nodes[p].term in c.h.lines && c.h.lines[c.nodes[p].term] == c.nodes[p].log
  {
    hide Indexes, StateOk, AckOk, Safe, ReadOk, BufferOk, MsgInv, HistInv, VoteOk, LogOk;
    assert NodeInv(c.cfg, c.h, p, c.nodes[p]);
  }

  /** Election safety: nobody else ever leads a term somebody led. */
  lemma ElectionSafety(cs: seq<World>, j: nat, k: nat, p: Id, q: Id)
    requires Run(cs) && j <= k < |cs| && p in cs[j].nodes && q in cs[k].nodes
    requires cs[j].nodes[p].role == Leader && cs[k].nodes[q].role == Leader
    requires cs[j].nodes[p].term == cs[k].nodes[q].term
    ensures p == q
  {
    hide Inv, Run;
    InvariantHolds(cs, j);
    InvariantHolds(cs, k);
    RunGrows(cs, j, k);
    LeaderWon(cs[j], p);
    LeaderWon(cs[k], q);
  }

  /** A leader never truncates or overwrites its own log. */
  lemma LeaderAppendOnly(cs: seq<World>, j: nat, k: nat, p: Id)
    requires Run(cs) && j <= k < |cs| && p in cs[j].nodes && p in cs[k].nodes
    requires cs[j].nodes[p].role == Leader && cs[k].nodes[p].role == Leader
    requires cs[j].nodes[p].term == cs[k].nodes[p].term
    ensures cs[j].nodes[p].log <= cs[k].nodes[p].log
  {
    hide Inv, Run;
    InvariantHolds(cs, j);
    InvariantHolds(cs, k);
    RunGrows(cs, j, k);
    LeaderWon(cs[j], p);
    LeaderWon(cs[k], p);
  }

  // ----- log matching -----------------------------------------------------------

  lemma NodeOnLine(c: World, h: History, p: Id)
    requires Inv(c) && p in c.nodes && Grows(c.h, h)
    ensures OnLine(h, c.nodes[p].log)
  {
    hide Indexes, StateOk, AckOk, Safe, ReadOk, BufferOk, MsgInv, HistInv, VoteOk, LeaderOk;
    assert NodeInv(c.cfg, c.h, p, c.nodes[p]);
    OnLineGrows(c.h, h, c.nodes[p].log);
  }

  /** Log matching: two nodes, at any two moments, with the same term at an index hold the
      same entries up to it. */
  lemma LogsMatch(cs: seq<World>, j: nat, k: nat, p: Id, q: Id, i: nat)
    requires Run(cs) && j <= k < |cs| && p in cs[j].nodes && q in cs[k].nodes
    requires i < |cs[j].nodes[p].log| && i < |cs[k].nodes[q].log|
    requires cs[j].nodes[p].log[i].term == cs[k].nodes[q].log[i].term
    ensures cs[j].nodes[p].log[..i + 1] == cs[k].nodes[q].log[..i + 1]
  {
    hide Inv, Run, Grows, OnLine;
    InvariantHolds(cs, j);
    InvariantHolds(cs, k);
    RunGrows(cs, j, k);
    RunGrows(cs, k, k);
    NodeOnLine(cs[j], cs[k].h, p);
    NodeOnLine(cs[k], cs[k].h, q);
    WorldLines(cs[k]);
    LogMatching(cs[k].h, cs[j].nodes[p].log, cs[k].nodes[q].log, i);
  }

  lemma WorldLines(c: World)
    requires Inv(c)
    ensures Lines(c.h) && HistInv(c.cfg, c.h)
  {}

  // ----- leader completeness ----------------------------------------------------

  lemma AdvanceRecorded(c: World, p: Id, i: nat)
    requires Inv(c) && Enabled(c, Advance(p, i))
    ensures p in c.nodes
    ensures var t := c.nodes[p].term; var h := Do(c, Advance(p, i)).h;
            (t, i) in h.commits && t in h.lines && i <= |h.lines[t]| && h.lines[t] == c.nodes[p].log
  {
    hide Inv;
    LeaderWon(c, p);
  }

  /** Leader completeness: what a leader commits is in the log of every leader of a later
      term, whenever that one leads. */
  lemma LeaderHasCommitted(cs: seq<World>, j: nat, p: Id, i: nat, k: nat, q: Id)
    requires Run(cs) && j + 1 < |cs| && k < |cs| && q in cs[k].nodes
    requires Enabled(cs[j], Advance(p, i)) && cs[j + 1] == Do(cs[j], Advance(p, i))
    requires cs[k].nodes[q].role == Leader && cs[j].nodes[p].term < cs[k].nodes[q].term
    ensures i <= |cs[j].nodes[p].log| && cs[j].nodes[p].log[..i] <= cs[k].nodes[q].log
  {
    hide Inv, Run, HistInv, Enabled, Do, NodeInv;
    var top := Max(j + 1, k);
    InvariantHolds(cs, j);
    InvariantHolds(cs, k);
    InvariantHolds(cs, top);
    RunGrows(cs, j + 1, top);
    RunGrows(cs, k, top);
    AdvanceRecorded(cs[j], p, i);
    LeaderWon(cs[k], q);
    WorldLines(cs[top]);
    WorldLines(cs[k]);
    var t, u, h := cs[j].nodes[p].term, cs[k].nodes[q].term, cs[top].h;
    LeaderCompleteness(cs[top].cfg, h, t, i, u);
    StartOnLine(cs[k].h, u);
    Prefixes(cs[j].nodes[p].log, h.lines[t], i);
  }

  lemma StartOnLine(h: History, t: nat)
    requires Lines(h) && t in h.won
    ensures t in h.lines && h.won[t].log <= h.lines[t]
  {
    assert LineOk(h, t);
  }

  lemma Prefixes<T>(a: seq<T>, b: seq<T>, i: nat)
    requires a <= b && i <= |a|
    ensures a[..i] == b[..i]
  {}

  // ----- state machine safety ---------------------------------------------------

  lemma NodeSafe(c: World, h: History, p: Id)
    requires Inv(c) && p in c.nodes && Grows(c.h, h)
    ensures var n := c.nodes[p];
            n.commit <= n.high && n.snap <= n.applied <= n.stateIndex <= n.high <= |n.log| &&
            Safe(h, n.log, n.high, n.term) &&
            (c.h.clean ==> n.state == Fold(n.log[..n.stateIndex]) && Accepted(n.log[..n.stateIndex]))
  {
    hide AckOk, Safe, ReadOk, BufferOk, MsgInv, HistInv, VoteOk, LeaderOk, Accepted, Fold;
    var n := c.nodes[p];
    assert NodeInv(c.cfg, c.h, p, n);
    SafeGrows(c.h, h, n.log, n.log, n.high, n.term, n.term);
  }

  /** State machine safety: any two nodes, at any two moments, agree on every entry that
      both ever knew committed; if no restart replayed an unidentified command, stores that
      stand for equally long prefixes are equal. */
  lemma StateMachineSafety(cs: seq<World>, j: nat, k: nat, p: Id, q: Id)
    requires Run(cs) && j <= k < |cs| && p in cs[j].nodes && q in cs[k].nodes
    ensures var a, b := cs[j].nodes[p], cs[k].nodes[q];
            && a.commit <= a.high <= |a.log| && b.commit <= b.high <= |b.log|
            && a.log[..Min(a.high, b.high)] == b.log[..Min(a.high, b.high)]
            && a.log[..Min(a.commit, b.commit)] == b.log[..Min(a.commit, b.commit)]
            && (cs[k].h.clean && a.stateIndex == b.stateIndex ==> a.state == b.state)
  {
    hide Inv, Run, Grows, HistInv, Safe, Fold, Accepted;
    InvariantHolds(cs, j);
    InvariantHolds(cs, k);
    RunGrows(cs, j, k);
    RunGrows(cs, k, k);
    NodeSafe(cs[j], cs[k].h, p);
    NodeSafe(cs[k], cs[k].h, q);
    WorldLines(cs[k]);
    var a, b := cs[j].nodes[p], cs[k].nodes[q];
    SafePrefixesAgree(cs[k].cfg, cs[k].h, a.log, a.high, a.term, b.log, b.high, b.term);
    Shrink(a.log, b.log, Min(a.high, b.high), Min(a.commit, b.commit));
    CleanBefore(cs[j].h, cs[k].h);
    if a.stateIndex == b.stateIndex { Shrink(a.log, b.log, Min(a.high, b.high), a.stateIndex); }
  }

  lemma Shrink<T>(a: seq<T>, b: seq<T>, m: nat, i: nat)
    requires i <= m <= |a| && m <= |b| && a[..m] == b[..m]
    ensures a[..i] == b[..i]
  {
    assert a[..m][..i] == a[..i] && b[..m][..i] == b[..i];
  }

  /** The store is the log's: at every batch boundary it holds the fold of a committed
      prefix, and what it has yet to replay is identified. */
  lemma StoreIsFold(cs: seq<World>, k: nat, p: Id)
    requires Run(cs) && k < |cs| && p in cs[k].nodes && cs[k].h.clean
    ensures var n := cs[k].nodes[p];
            && n.snap <= n.applied <= n.stateIndex <= |n.log|
            && Accepted(n.log[..n.stateIndex]) && n.state == Fold(n.log[..n.stateIndex])
            && (n.snap > 0 ==> n.snapData == cs[k].cfg.codec.encode(Fold(n.log[..n.snap])))
            && (forall i :: n.applied <= i < n.stateIndex ==> n.log[i].command.HasId())
  {
    hide Run, AckOk, Safe, ReadOk, BufferOk, MsgInv, HistInv, VoteOk, LeaderOk, LogOk, Accepted, Fold;
    InvariantHolds(cs, k);
    assert NodeInv(cs[k].cfg, cs[k].h, p, cs[k].nodes[p]);
  }

  // ----- runs that only submit identified commands ------------------------------

  predicate Identified(log: seq<Entry>) { forall i :: 0 <= i < |log| ==> log[i].command.HasId() }

  ghost predicate IdentifiedRun(cs: seq<World>) {
    Run(cs) && forall k :: 0 <= k < |cs| - 1 ==> IdentifiedNext(cs[k], cs[k + 1])
  }

  ghost predicate IdentifiedNext(c: World, c': World) {
    exists s :: Enabled(c, s) && (s.Submit? ==> s.command.HasId()) && c' == Do(c, s)
  }

  ghost predicate IdentifiedLines(h: History) { forall t :: t in h.lines ==> Identified(h.lines[t]) }

  lemma NodeIdentified(c: World, p: Id)
    requires Inv(c) && p in c.nodes && IdentifiedLines(c.h)
    ensures Identified(c.nodes[p].log)
  {
    hide Inv;
    Still(c.h, p);
    NodeOnLine(c, c.h, p);
  }

  /** Only elections and submissions write lines, only restarts can taint a run. */
  lemma LinesStand(c: World, s: Step)
    requires Enabled(c, s) && !s.Win? && !s.Submit? && !s.Crash?
    ensures Do(c, s).h.lines == c.h.lines && Do(c, s).h.clean == c.h.clean
  {
    hide Enabled, NodeAfter, Sent, Takes, Grants, Installs, Holders;
  }

  lemma IdentifiedWin(c: World, p: Id)
    requires Inv(c) && Enabled(c, Win(p)) && IdentifiedLines(c.h)
    ensures IdentifiedLines(Trace(c, Win(p))) && Trace(c, Win(p)).clean == c.h.clean
  {
    hide Inv;
    NodeIdentified(c, p);
  }

  lemma IdentifiedSubmit(c: World, p: Id, command: Command)
    requires Inv(c) && Enabled(c, Submit(p, command)) && IdentifiedLines(c.h) && command.HasId()
    ensures IdentifiedLines(Trace(c, Submit(p, command))) && Trace(c, Submit(p, command)).clean == c.h.clean
  {
    hide Inv;
    NodeIdentified(c, p);
  }

  lemma IdentifiedCrash(c: World, p: Id)
    requires Inv(c) && Enabled(c, Crash(p)) && IdentifiedLines(c.h)
    ensures IdentifiedLines(Trace(c, Crash(p))) && Trace(c, Crash(p)).clean == c.h.clean
  {
    hide Inv;
    NodeIdentified(c, p);
  }

  lemma IdentifiedStep(c: World, s: Step)
    requires Inv(c) && Enabled(c, s) && IdentifiedLines(c.h) && c.h.clean
    requires s.Submit? ==> s.command.HasId()
    ensures IdentifiedLines(Do(c, s).h) && Do(c, s).h.clean
  {
    hide Inv, NodeAfter, Sent, Trace, Enabled, IdentifiedLines;
    match s
    case Win(p) => IdentifiedWin(c, p);
    case Submit(p, command) => IdentifiedSubmit(c, p, command);
    case Crash(p) => IdentifiedCrash(c, p);
    case _ => LinesStand(c, s); SameLines(c.h, Do(c, s).h);
  }

  lemma SameLines(h: History, h': History)
    requires IdentifiedLines(h) && h'.lines == h.lines
    ensures IdentifiedLines(h')
  {}

  /** If every submitted command carries a request id, no restart, wherever it falls,
      replays an unidentified command. */
  lemma {:induction false} IdentifiedIsClean(cs: seq<World>, k: nat)
    requires IdentifiedRun(cs) && k < |cs|
    ensures cs[k].h.clean && IdentifiedLines(cs[k].h)
  {
    hide Inv, Enabled, Do, IdentifiedLines;
    if k == 0 {
      assert cs[0].h == NO_HISTORY && IdentifiedLines(NO_HISTORY) by { NoLines(); }
    } else {
      IdentifiedIsClean(cs, k - 1);
      InvariantHolds(cs, k - 1);
      assert IdentifiedNext(cs[k - 1], cs[k]);
      var s :| Enabled(cs[k - 1], s) && (s.Submit? ==> s.command.HasId()) && cs[k] == Do(cs[k - 1], s);
      IdentifiedStep(cs[k - 1], s);
    }
  }

  lemma NoLines()
    ensures IdentifiedLines(NO_HISTORY)
  {}

  // ----- runs whose restarts replay nothing -------------------------------------

  /** The restart finds its stored commit index at or above its stored progress. */
  predicate ReplayFree(c: World, s: Step)
    requires Enabled(c, s)
  {
    s.Crash? ==> c.nodes[s.p].applied <= Max(c.nodes[s.p].dcommit, c.nodes[s.p].snap)
  }

  ghost predicate ReplayFreeRun(cs: seq<World>) {
    Run(cs) && forall k :: 0 <= k < |cs| - 1 ==> ReplayFreeNext(cs[k], cs[k + 1])
  }

  ghost predicate ReplayFreeNext(c: World, c': World) {
    exists s :: Enabled(c, s) && ReplayFree(c, s) && c' == Do(c, s)
  }

  lemma ReplayFreeStep(c: World, s: Step, q: Id)
    requires Inv(c) && Enabled(c, s) && ReplayFree(c, s) && q in c.nodes
    requires c.nodes[q].applied == c.nodes[q].stateIndex
    ensures q in Do(c, s).nodes && Do(c, s).nodes[q].applied == Do(c, s).nodes[q].stateIndex
    ensures c.h.clean && q == s.p ==> Do(c, s).h.clean
  {
    hide AckOk, Safe, ReadOk, BufferOk, MsgInv, HistInv, VoteOk, LeaderOk, LogOk, StateOk, TermsPassed;
    if q == s.p && s.Crash? {
      assert NodeInv(c.cfg, c.h, q, c.nodes[q]);
      RestartReplaysNothing(c.nodes[q]);
    } else {
      hide Inv;
    }
  }

  lemma StepNodes(c: World, s: Step)
    requires Inv(c) && Enabled(c, s)
    ensures Do(c, s).nodes.Keys == c.nodes.Keys && s.p in c.nodes
  {
    hide Inv, ChunkNode, ChunkReply, Merged, AppendOk, Promote, Campaign, StepDown, Compact, Restart;
  }

  /** Then last_applied is exactly what the store stands for. */
  lemma {:induction false} AppliedIsState(cs: seq<World>, k: nat)
    requires ReplayFreeRun(cs) && k < |cs|
    ensures cs[k].nodes.Keys == cs[0].nodes.Keys && cs[k].h.clean
    ensures forall p :: p in cs[k].nodes ==> cs[k].nodes[p].applied == cs[k].nodes[p].stateIndex
  {
    hide Inv, Enabled, Do, ReplayFree;
    if k > 0 {
      AppliedIsState(cs, k - 1);
      InvariantHolds(cs, k - 1);
      assert ReplayFreeNext(cs[k - 1], cs[k]);
      var s :| Enabled(cs[k - 1], s) && ReplayFree(cs[k - 1], s) && cs[k] == Do(cs[k - 1], s);
      StepNodes(cs[k - 1], s);
      forall p | p in cs[k].nodes ensures cs[k].nodes[p].applied == cs[k].nodes[p].stateIndex {
        ReplayFreeStep(cs[k - 1], s, p);
      }
      ReplayFreeStep(cs[k - 1], s, s.p);
    }
  }

  /** Replicas with equal last_applied hold equal user entries and request tables. */
  lemma ReplicasConverge(cs: seq<World>, j: nat, k: nat, p: Id, q: Id)
    requires ReplayFreeRun(cs) && j <= k < |cs| && p in cs[0].nodes && q in cs[0].nodes
    ensures p in cs[j].nodes && q in cs[k].nodes
    ensures cs[j].nodes[p].applied == cs[k].nodes[q].applied ==>
              cs[j].nodes[p].state.user == cs[k].nodes[q].state.user &&
              cs[j].nodes[p].state.dedup == cs[k].nodes[q].state.dedup
  {
    hide Run;
    AppliedIsState(cs, j);
    AppliedIsState(cs, k);
    StateMachineSafety(cs, j, k, p, q);
  }

  // ----- the wire ---------------------------------------------------------------

  /** Every AppendEntries ever sent vouches for at least the commit index it announces, and
      what it announces is committed in the log of the leader that sent it. */
  lemma CommitBoundSent(cs: seq<World>, k: nat, m: Msg)
    requires Run(cs) && k < |cs| && m in cs[k].net && m.AppendReq?
    ensures m.commit <= m.prev + |m.entries|
    ensures m.term in cs[k].h.lines && Safe(cs[k].h, cs[k].h.lines[m.term], m.commit, m.term)
  {
    hide Run, NodeInv, HistInv, Safe;
    InvariantHolds(cs, k);
    assert MsgInv(cs[k].cfg, cs[k].h, m);
  }

  /** So a follower that accepts one only commits entries it shares with the leader. */
  lemma CommitBoundOnWire(cs: seq<World>, k: nat, p: Id, m: Msg)
    requires Run(cs) && k < |cs| && m in cs[k].net && m.AppendReq?
    requires p in cs[k].nodes && m.term == cs[k].nodes[p].term && Consistent(cs[k].nodes[p], m)
    ensures m.commit <= m.prev + |m.entries|
    ensures Merged(cs[k].nodes[p], m).Some?
    ensures var n := cs[k].nodes[p]; var log := Merged(n, m).value; var t := m.term;
            && t in cs[k].h.lines && m.prev + |m.entries| <= |cs[k].h.lines[t]|
            && AppendOk(n, m, log).commit == m.commit
            && cs[k].h.lines[t][..m.prev + |m.entries|] <= log
            && n.commit <= n.high <= |n.log| && n.log[..n.high] <= log
  {
    hide Run, AckOk, Safe, ReadOk, BufferOk, HistInv, VoteOk, LeaderOk, LogOk, StateOk, Consistent, Merged;
    InvariantHolds(cs, k);
    var c, n := cs[k], cs[k].nodes[p];
    assert NodeInv(c.cfg, c.h, p, n) && MsgInv(c.cfg, c.h, m);
    MergedIsMerge(c.cfg, c.h, n, m);
    SafeOnLaterLine(c.cfg, c.h, n.log, n.high, n.term, n.term);
    MergeKeeps(n.log, c.h.lines[n.term], m.prev + |m.entries|, n.log[..n.high]);
  }
}
