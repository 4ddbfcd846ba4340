/** Whole handlers of a node, each from one idle moment to the next, and the proof that
    each one is a sequence of protocol steps. */
module Handlers {
  import opened Commands
  import opened Quorums
  import opened Cluster
  import opened Steps
  import opened Invariant
  import ExactlyOnce

  // ----- ApplyCommitted ---------------------------------------------------------

  predicate CanApply(n: Node) {
    n.applied < n.commit && n.applied < |n.log| && Applicable(n.state, n.log[n.applied].command)
  }

  /** The apply loop, up to the commit index or to the first rejected command. */
  function Drain(n: Node): Node
    decreases |n.log| - n.applied
  {
    if CanApply(n) then Drain(ApplyOne(n)) else n
  }

  /** The loop reaches the commit index. */
  predicate Drains(n: Node) { Drain(n).applied >= n.commit }

  /** How ApplyCommitted ends: done, stopped at a command the state machine rejects, or
      without a term to label the snapshot that is due. The program throws in the last two. */
  datatype Outcome = Done | Rejecting | Unlabelled

  /** The term a due snapshot would carry is known. */
  predicate Labelled(n: Node) { NeedsSnapshot(n) ==> TermAt(n, n.commit) != 0 }

  function Ending(n: Node): Outcome {
    if !Drains(n) then Rejecting else if !Labelled(Drain(n)) then Unlabelled else Done
  }

  /** Where a node stands after such an end. */
  function RestPhase(outcome: Outcome): Phase {
    match outcome
    case Done => Idle
    case Rejecting => Applying
    case Unlabelled => Compacting
  }

  /** ApplyCommitted, with the node it leaves behind in each of the three cases. */
  function Settle(codec: Codec, n: Node): Node {
    match Ending(n)
    case Done => Compact(codec, Persist(Drain(n)))
    case Rejecting => Drain(n)
    case Unlabelled => Persist(Drain(n))
  }

  // ----- TryAdvanceCommit -------------------------------------------------------

  predicate Counts(p: Id, peers: set<Id>, n: Node, index: nat) {
    TermAt(n, index) == n.term && |Holders(p, n, index)| > |peers| / 2
  }

  /** The search from `from` down to the commit index. */
  function Largest(p: Id, peers: set<Id>, n: Node, from: nat): (r: Option<nat>)
    ensures r.Some? ==> n.commit < r.value <= from && Counts(p, peers, n, r.value)
    ensures forall i :: n.commit < i <= from && Counts(p, peers, n, i) ==> r.Some? && i <= r.value
  {
    if from <= n.commit then None
    else if Counts(p, peers, n, from) then Some(from)
    else Largest(p, peers, n, from - 1)
  }

  function Advanced(codec: Codec, p: Id, peers: set<Id>, n: Node): Node {
    match Largest(p, peers, n, |n.log|)
    case Some(index) => if n.role == Leader then Settle(codec, CommitTo(n, index)) else n
    case None => n
  }

  /** More than half of the peers, the leader among them, have stored up to this index. */
  ghost predicate Backed(p: Id, peers: set<Id>, matched: map<Id, nat>, index: nat) {
    2 * |{p} + set q | q in matched && matched[q] >= index| > |peers|
  }

  /** An index a leader may commit: above its commit index, an entry of its own term that it
      still has or that ends its snapshot, and backed. */
  ghost predicate Committable(p: Id, peers: set<Id>, n: Node, index: nat) {
    && n.commit < index <= |n.log| && n.snap <= index && n.log[index - 1].term == n.term
    && Backed(p, peers, n.matched, index)
  }

  /** The commit index reached every index that may be committed, and no other. */
  ghost predicate CommitsAll(p: Id, peers: set<Id>, n: Node, commit: nat) {
    && (forall i: nat :: Committable(p, peers, n, i) ==> i <= commit)
    && (commit == n.commit || Committable(p, peers, n, commit))
  }

  lemma CountsIff(p: Id, peers: set<Id>, n: Node, i: nat)
    requires n.term > 0
    ensures n.commit < i <= |n.log| && Counts(p, peers, n, i) <==> Committable(p, peers, n, i)
  {
    assert Holders(p, n, i) == {p} + set q | q in n.matched && n.matched[q] >= i;
  }

  /** A leader commits the largest index that more than half of the peers have stored and that
      is of its own term, and everything it may commit with it. */
  lemma AdvanceCommits(codec: Codec, p: Id, peers: set<Id>, n: Node)
    requires n.role == Leader && n.term > 0
    ensures CommitsAll(p, peers, n, Advanced(codec, p, peers, n).commit)
    ensures var r := Advanced(codec, p, peers, n); r.log == n.log && r.matched == n.matched && r.term == n.term
  {
    hide Settle, Counts, Committable;
    forall i: nat ensures n.commit < i <= |n.log| && Counts(p, peers, n, i) <==> Committable(p, peers, n, i) {
      CountsIff(p, peers, n, i);
    }
    match Largest(p, peers, n, |n.log|)
    case Some(index) => SettleKeeps(codec, CommitTo(n, index));
    case None =>
  }

  /** The loop changes only the store and the progress. */
  lemma {:induction false} DrainKeeps(n: Node)
    ensures Drain(n) == n.(state := Drain(n).state, stateIndex := Drain(n).stateIndex, applied := Drain(n).applied,
                           dcommit := Drain(n).dcommit)
    decreases |n.log| - n.applied
  {
    hide Drain, Execute, Applicable;
    DrainUnfold(n);
    if CanApply(n) { DrainKeeps(ApplyOne(n)); }
  }

  lemma SettleKeeps(codec: Codec, n: Node)
    ensures var n' := Settle(codec, n);
            && n'.log == n.log && n'.commit == n.commit && n'.high == n.high && n'.term == n.term && n'.role == n.role
            && n'.matched == n.matched && n'.vote == n.vote && (n'.snap == n.snap || n'.snap == n.commit)
  {
    hide Drain;
    DrainKeeps(n);
  }

  // ----- the handlers -----------------------------------------------------------

  /** A message of the current or a newer leader turns its receiver into a follower. */
  function Yield(n: Node, term: nat): Node {
    if term > n.term || n.role != Follower then StepDown(n, term) else n
  }

  function OnVoteRequest(n: Node, m: Msg): Node
    requires m.VoteReq?
  {
    var n1 := if m.term > n.term then StepDown(n, m.term) else n;
    if Grants(n1, m) then n1.(vote := Some(m.src)) else n1
  }

  function VoteAnswer(p: Id, n: Node, m: Msg): Msg
    requires m.VoteReq?
  {
    var n1 := if m.term > n.term then StepDown(n, m.term) else n;
    VoteResp(p, m.src, n1.term, Grants(n1, m))
  }

  function OnVoteReply(p: Id, peers: set<Id>, n: Node, m: Msg): Node
    requires m.VoteResp?
  {
    if m.term > n.term then StepDown(n, m.term)
    else if n.role != Candidate || m.term != n.term || !m.granted then n
    else
      var n1 := n.(granted := n.granted + {m.src});
      if m.src !in n.granted && |n1.granted| >= |peers| / 2 + 1 then Promote(p, n1, peers) else n1
  }

  function OnAppend(codec: Codec, n: Node, m: Msg): Node
    requires m.AppendReq?
  {
    if m.term < n.term then n
    else
      var n1 := Yield(n, m.term);
      match Merged(n1, m)
      case None => n1
      case Some(log) => Settle(codec, AppendOk(n1, m, log))
  }

  function AppendAnswer(p: Id, n: Node, m: Msg): Msg
    requires m.AppendReq?
  {
    var n1 := if m.term < n.term then n else Yield(n, m.term);
    if m.term < n.term || Merged(n1, m) == None
    then AppendResp(p, m.src, n1.term, false, |n1.log|)
    else AppendResp(p, m.src, n1.term, true, m.prev + |m.entries|)
  }

  function OnAppendReply(codec: Codec, p: Id, peers: set<Id>, n: Node, m: Msg): Node
    requires m.AppendResp?
  {
    if m.term > n.term then StepDown(n, m.term)
    else if n.role != Leader || m.term != n.term || !m.ok then n
    else Advanced(codec, p, peers, n.(matched := n.matched[m.src := Min(m.match_, |n.log|)]))
  }

  function OnSnapshot(cfg: Config, n: Node, m: Msg): Node
    requires m.SnapReq?
  {
    if m.term < n.term then n
    else
      var n1 := Yield(n, m.term);
      if Installs(cfg, n1, m) then Settle(cfg.codec, ChunkNode(cfg, n1, m)) else ChunkNode(cfg, n1, m)
  }

  function SnapshotAnswer(cfg: Config, p: Id, n: Node, m: Msg): Msg
    requires m.SnapReq?
  {
    ChunkReply(cfg, p, if m.term < n.term then n else Yield(n, m.term), m)
  }

  /** What a client's command meets: no leader, a request that was already applied (with the
      same command or another one), or the log. */
  datatype Admission = Refused | Known(same: bool) | Appended

  function Admit(n: Node, command: Command): Admission {
    if n.role != Leader then Refused
    else if command.HasId() && command.Id() in n.state.dedup then Known(n.state.dedup[command.Id()] == command)
    else Appended
  }

  function OnSubmit(codec: Codec, p: Id, peers: set<Id>, n: Node, command: Command): Node {
    if Admit(n, command) != Appended then n else Advanced(codec, p, peers, Extend(n, command))
  }

  /** Only a leader admits. A retry succeeds without a second entry iff that very command is
      among those the leader has applied, a reused id is refused iff another command with it
      is, and every other command is appended. */
  lemma RetryIff(n: Node, command: Command, applied: seq<Entry>)
    requires Accepted(applied) && n.state == Fold(applied)
    ensures Admit(n, command) == Refused <==> n.role != Leader
    ensures Admit(n, command) == Known(true) <==>
              (&& n.role == Leader && command.HasId()
               && exists j :: 0 <= j < |applied| && applied[j].command == command)
    ensures Admit(n, command) == Known(false) <==>
              (&& n.role == Leader && command.HasId()
               && exists j :: 0 <= j < |applied| && applied[j].command.HasId() &&
                              applied[j].command.Id() == command.Id() && applied[j].command != command)
    ensures Admit(n, command) == Appended <==>
              (&& n.role == Leader
               && (!command.HasId() || forall j :: 0 <= j < |applied| && applied[j].command.HasId() ==>
                                                  applied[j].command.Id() != command.Id()))
  {
    ExactlyOnce.TableIsExact(applied);
    assert command.Id() in n.state.dedup <==> ExactlyOnce.Seen(applied, command.Id());
  }

  /** An admitted command becomes the last entry of the log, in the leader's term. */
  lemma SubmitAppends(codec: Codec, p: Id, peers: set<Id>, n: Node, command: Command)
    requires Admit(n, command) == Appended && n.term > 0
    ensures var r := OnSubmit(codec, p, peers, n, command);
            r.log == n.log + [Entry(n.term, command)] && CommitsAll(p, peers, Extend(n, command), r.commit)
  {
    hide Advanced, CommitsAll;
    AdvanceCommits(codec, p, peers, Extend(n, command));
  }

  /** A success of the current term is recorded, and with it everything that now may be
      committed is. */
  lemma ReplyCommits(codec: Codec, p: Id, peers: set<Id>, n: Node, m: Msg)
    requires m.AppendResp? && m.ok && n.role == Leader && m.term == n.term > 0
    ensures var n1 := n.(matched := n.matched[m.src := Min(m.match_, |n.log|)]);
            var r := OnAppendReply(codec, p, peers, n, m);
            r.matched == n1.matched && r.log == n.log && CommitsAll(p, peers, n1, r.commit)
  {
    hide Advanced, CommitsAll;
    AdvanceCommits(codec, p, peers, n.(matched := n.matched[m.src := Min(m.match_, |n.log|)]));
  }

  function OnRestart(codec: Codec, n: Node): Node { Settle(codec, Restart(n)) }

  function OnTimeout(p: Id, peers: set<Id>, n: Node): Node {
    var n1 := Campaign(p, n);
    if 1 >= |peers| / 2 + 1 then Promote(p, n1, peers) else n1
  }

  function OnSnapshotReply(n: Node, m: Msg): Node
    requires m.SnapResp?
  {
    if m.term > n.term then StepDown(n, m.term)
    else if n.role == Leader && m.term == n.term && m.ok && m.next == |n.snapData|
    then n.(matched := n.matched[m.src := n.snap])
    else n
  }

  /** What one AppendEntries response does to next_index_. */
  function NextIndex(n: Node, next: map<Id, nat>, src: Id, ok: bool, match_: nat): map<Id, nat> {
    if ok then next[src := Min(match_, |n.log|) + 1]
    else if src in next && next[src] > n.snap + 1 then next[src := next[src] - 1]
    else next
  }

  /** Where a transfer continues: at the offset the peer asks for, or at the start when that
      offset is beyond the snapshot or the snapshot is complete. */
  function OffsetAfter(size: nat, ok: bool, next: nat): nat {
    if next > size || (ok && next == size) then 0 else next
  }

  // ----- the read queue ---------------------------------------------------------

  function OnReadRequest(n: Node, m: Msg): Node
    requires m.ReadReq?
  {
    if m.term < n.term then n else Yield(n, m.term)
  }

  function ReadAnswer(p: Id, n: Node, m: Msg): Msg
    requires m.ReadReq?
  {
    ReadResp(p, m.src, OnReadRequest(n, m).term, m.term == OnReadRequest(n, m).term, m.id)
  }

  /** The active read is closed; a confirmed one applies what is committed first. */
  function Closed(codec: Codec, n: Node, confirmed: bool): Node {
    if confirmed then Settle(codec, n.(read := None, phase := Applying)) else n.(read := None)
  }

  /** StartNextReadIndex: the node and the queue it leaves. In a cluster of one every read is
      confirmed as it opens. */
  function Serve(codec: Codec, p: Id, peers: set<Id>, n: Node, queue: seq<nat>): (Node, seq<nat>)
    decreases |queue|
  {
    if n.read.Some? || queue == [] then (n, queue)
    else if n.role != Leader then (n, [])
    else
      var n1 := OpenRead(p, n, queue[0]);
      if 1 < |peers| / 2 + 1 then (n1, queue[1..])
      else
        var n2 := Closed(codec, n1, true);
        if n2.phase != Idle then (n2, queue[1..]) else Serve(codec, p, peers, n2, queue[1..])
  }

  /** FinishReadIndex. */
  function Finish(codec: Codec, p: Id, peers: set<Id>, n: Node, queue: seq<nat>, confirmed: bool): (Node, seq<nat>) {
    var n1 := Closed(codec, n, confirmed);
    if n1.phase != Idle then (n1, queue) else Serve(codec, p, peers, n1, queue)
  }

  /** The response counts for the active read. */
  predicate Confirms(n: Node, m: Msg)
    requires m.ReadResp?
  {
    m.ok && n.role == Leader && m.term == n.term && n.read.Some? && n.read.value.id == m.id
  }

  function Acked(n: Node, src: Id): Node
    requires n.read.Some?
  {
    n.(read := Some(n.read.value.(acks := n.read.value.acks + {src})))
  }

  /** The response completes a majority, so the active read is answered. */
  predicate Completes(peers: set<Id>, n: Node, m: Msg)
    requires m.ReadResp?
  {
    Confirms(n, m) && |Acked(n, m.src).read.value.acks| >= |peers| / 2 + 1
  }

  function OnReadReply(codec: Codec, p: Id, peers: set<Id>, n: Node, m: Msg, queue: seq<nat>): (Node, seq<nat>)
    requires m.ReadResp?
  {
    if m.term > n.term then (StepDown(n, m.term), [])
    else if Completes(peers, n, m) then Finish(codec, p, peers, Acked(n, m.src), queue, true)
    else if Confirms(n, m) then (Acked(n, m.src), queue)
    else (n, queue)
  }

  // ----- each handler is a run --------------------------------------------------

  ghost predicate Path(cs: seq<World>) {
    |cs| > 0 && forall k :: 0 <= k < |cs| - 1 ==> Next(cs[k], cs[k + 1])
  }

  ghost predicate Reaches(c: World, c': World) {
    exists cs :: Path(cs) && cs[0] == c && cs[|cs| - 1] == c'
  }

  lemma ReachesSelf(c: World)
    ensures Reaches(c, c)
  {
    assert Path([c]) && [c][0] == c;
  }

  lemma ReachesStep(c: World, c': World, s: Step)
    requires Reaches(c, c') && Enabled(c', s)
    ensures Reaches(c, Do(c', s))
  {
    hide Enabled, Do;
    var cs :| Path(cs) && cs[0] == c && cs[|cs| - 1] == c';
    var more := cs + [Do(c', s)];
    forall k | 0 <= k < |more| - 1 ensures Next(more[k], more[k + 1]) {
      if k < |cs| - 1 { assert Next(cs[k], cs[k + 1]); } else { assert more[k] == c'; }
    }
    assert Path(more) && more[0] == c && more[|more| - 1] == Do(c', s);
  }

  lemma ReachesTrans(a: World, b: World, c: World)
    requires Reaches(a, b) && Reaches(b, c)
    ensures Reaches(a, c)
  {
    hide Next;
    var x :| Path(x) && x[0] == a && x[|x| - 1] == b;
    var y :| Path(y) && y[0] == b && y[|y| - 1] == c;
    var z := x + y[1..];
    forall k | 0 <= k < |z| - 1 ensures Next(z[k], z[k + 1]) {
      if k < |x| - 1 { assert Next(x[k], x[k + 1]); } else { assert Next(y[k + 1 - |x|], y[k + 2 - |x|]); }
    }
    assert Path(z) && z[0] == a && z[|z| - 1] == c;
  }

  /** `c'` is `c` with node `p` replaced, after steps of `p` alone. */
  ghost predicate Walks(c: World, p: Id, n: Node, c': World) {
    Reaches(c, c') && c'.cfg == c.cfg && c'.nodes == c.nodes[p := n] && c.net <= c'.net && p in c.cfg.peers && p in c.nodes
  }

  lemma Stay(c: World, p: Id)
    requires p in c.cfg.peers && p in c.nodes
    ensures Walks(c, p, c.nodes[p], c)
  {
    ReachesSelf(c);
    assert c.nodes == c.nodes[p := c.nodes[p]];
  }

  lemma Walk(c: World, p: Id, n: Node, c': World, s: Step, n': Node) returns (c'': World)
    requires Walks(c, p, n, c') && s.p == p && Enabled(c', s) && Do(c', s).nodes == c'.nodes[p := n']
    ensures Walks(c, p, n', c'') && c'' == Do(c', s)
  {
    hide Enabled, NodeAfter, Sent, Trace, Reaches;
    c'' := Do(c', s);
    ReachesStep(c, c', s);
    assert c.nodes[p := n][p := n'] == c.nodes[p := n'];
  }

  lemma {:induction false} DrainWalk(c: World, p: Id, n: Node, c': World) returns (c'': World)
    requires Walks(c, p, n, c') && n.phase == Applying
    ensures Walks(c, p, Drain(n), c'') && c'.net <= c''.net && Drain(n) == n.(state := Drain(n).state,
              stateIndex := Drain(n).stateIndex, applied := Drain(n).applied, dcommit := Drain(n).dcommit)
    decreases |n.log| - n.applied
  {
    hide Walks, Drain;
    if CanApply(n) {
      var c1 := ApplyWalk(c, p, n, c');
      c'' := DrainWalk(c, p, ApplyOne(n), c1);
    } else {
      c'' := c';
    }
    DrainUnfold(n);
  }

  lemma DrainUnfold(n: Node)
    ensures Drain(n) == if CanApply(n) then Drain(ApplyOne(n)) else n
  {}

  lemma ApplyWalk(c: World, p: Id, n: Node, c': World) returns (c'': World)
    requires Walks(c, p, n, c') && n.phase == Applying && CanApply(n)
    ensures Walks(c, p, ApplyOne(n), c'') && c'.net <= c''.net
  {
    hide Applicable, Execute;
    c'' := Walk(c, p, n, c', ApplyNext(p), ApplyOne(n));
  }

  /** The rest of a handler that called ApplyCommitted. */
  lemma SettleWalk(c: World, p: Id, n: Node, c': World) returns (c'': World)
    requires Walks(c, p, n, c') && n.phase == Applying
    ensures Walks(c, p, Settle(c.cfg.codec, n), c'') && c'.net <= c''.net
  {
    hide Reaches, Drain, Labelled;
    c'' := DrainWalk(c, p, n, c');
    if Drains(n) {
      c'' := Walk(c, p, Drain(n), c'', PersistProgress(p), Persist(Drain(n)));
      if Labelled(Drain(n)) {
        c'' := Walk(c, p, Persist(Drain(n)), c'', CompactLog(p), Compact(c.cfg.codec, Persist(Drain(n))));
      }
    }
  }

  lemma ObserveWalk(c: World, p: Id, m: Msg) returns (c': World)
    requires p in c.cfg.peers && p in c.nodes && c.nodes[p].phase == Idle && Receives(c, p, m)
    requires m.AppendReq? || m.SnapReq? || m.ReadReq?
    requires m.term >= c.nodes[p].term
    ensures Walks(c, p, Yield(c.nodes[p], m.term), c') && m in c'.net
  {
    hide Reaches;
    var n := c.nodes[p];
    Stay(c, p);
    c' := c;
    if m.term > n.term || n.role != Follower {
      c' := Walk(c, p, n, c, Observe(p, m), StepDown(n, m.term));
    }
  }

  lemma AnswerAppendWalk(c: World, p: Id, n: Node, c': World, m: Msg) returns (c'': World)
    requires Walks(c, p, n, c') && n.phase == Idle && m.AppendReq? && Receives(c', p, m)
    requires m.term < n.term || (m.term == n.term && n.role == Follower)
    ensures m.term < n.term || Merged(n, m) == None ==> Walks(c, p, n, c'')
    ensures m.term == n.term && Merged(n, m).Some? ==> Walks(c, p, AppendOk(n, m, Merged(n, m).value), c'')
    ensures (if m.term < n.term || Merged(n, m) == None
             then AppendResp(p, m.src, n.term, false, |n.log|)
             else AppendResp(p, m.src, n.term, true, m.prev + |m.entries|)) in c''.net
  {
    hide Reaches, Merged;
    c'' := Walk(c, p, n, c', AnswerAppend(p, m), AppendNode(n, m));
  }

  /** HandleAppendEntries is a run of the protocol. */
  lemma AppendIsRun(c: World, p: Id, m: Msg) returns (c': World)
    requires p in c.cfg.peers && p in c.nodes && c.nodes[p].phase == Idle && Receives(c, p, m) && m.AppendReq?
    ensures Walks(c, p, OnAppend(c.cfg.codec, c.nodes[p], m), c') && AppendAnswer(p, c.nodes[p], m) in c'.net
  {
    hide Walks, Merged, Settle;
    var n := c.nodes[p];
    if m.term < n.term {
      Stay(c, p);
      c' := AnswerAppendWalk(c, p, n, c, m);
    } else {
      var n1 := Yield(n, m.term);
      var c1 := ObserveWalk(c, p, m);
      c' := AnswerAppendWalk(c, p, n1, c1, m);
      if Merged(n1, m).Some? {
        c' := SettleWalk(c, p, AppendOk(n1, m, Merged(n1, m).value), c');
      }
    }
  }

  lemma AnswerSnapshotWalk(c: World, p: Id, n: Node, c': World, m: Msg) returns (c'': World)
    requires Walks(c, p, n, c') && n.phase == Idle && m.SnapReq? && Receives(c', p, m)
    requires m.term < n.term || (m.term == n.term && n.role == Follower)
    ensures Walks(c, p, if m.term < n.term then n else ChunkNode(c.cfg, n, m), c'')
    ensures ChunkReply(c.cfg, p, n, m) in c''.net
  {
    hide Reaches, ChunkNode, ChunkReply, Installs;
    c'' := Walk(c, p, n, c', AnswerSnapshot(p, m), NodeAfter(c', AnswerSnapshot(p, m)));
  }

  lemma InstallShape(cfg: Config, n: Node, m: Msg)
    requires m.SnapReq? && Installs(cfg, n, m)
    ensures ChunkNode(cfg, n, m).phase == Applying
  {}

  /** HandleInstallSnapshot is a run of the protocol. */
  lemma SnapshotIsRun(c: World, p: Id, m: Msg) returns (c': World)
    requires p in c.cfg.peers && p in c.nodes && c.nodes[p].phase == Idle && Receives(c, p, m) && m.SnapReq?
    ensures Walks(c, p, OnSnapshot(c.cfg, c.nodes[p], m), c') && SnapshotAnswer(c.cfg, p, c.nodes[p], m) in c'.net
  {
    hide Walks, ChunkNode, Settle, Installs;
    var n := c.nodes[p];
    if m.term < n.term {
      Stay(c, p);
      c' := AnswerSnapshotWalk(c, p, n, c, m);
    } else {
      var n1 := Yield(n, m.term);
      var c1 := ObserveWalk(c, p, m);
      c' := AnswerSnapshotWalk(c, p, n1, c1, m);
      if Installs(c.cfg, n1, m) {
        InstallShape(c.cfg, n1, m);
        c' := SettleWalk(c, p, ChunkNode(c.cfg, n1, m), c');
      }
    }
  }

  lemma AdvanceWalk(c: World, p: Id, n: Node, c': World) returns (c'': World)
    requires Walks(c, p, n, c') && n.phase == Idle
    ensures Walks(c, p, Advanced(c.cfg.codec, p, c.cfg.peers, n), c'')
  {
    hide Reaches, Largest, Settle, Holders;
    var r := Largest(p, c.cfg.peers, n, |n.log|);
    c'' := c';
    if n.role == Leader && r.Some? {
      c'' := Walk(c, p, n, c', Advance(p, r.value), CommitTo(n, r.value));
      c'' := SettleWalk(c, p, CommitTo(n, r.value), c'');
    }
  }

  /** HandleAppendEntriesResponse with its TryAdvanceCommit is a run of the protocol. */
  lemma AppendReplyIsRun(c: World, p: Id, m: Msg) returns (c': World)
    requires p in c.cfg.peers && p in c.nodes && c.nodes[p].phase == Idle && Receives(c, p, m) && m.AppendResp?
    requires m.src != p
    ensures Walks(c, p, OnAppendReply(c.cfg.codec, p, c.cfg.peers, c.nodes[p], m), c')
  {
    hide Reaches, Advanced;
    var n := c.nodes[p];
    Stay(c, p);
    c' := c;
    if m.term > n.term {
      c' := Walk(c, p, n, c, Observe(p, m), StepDown(n, m.term));
    } else if n.role == Leader && m.term == n.term && m.ok {
      var n1 := n.(matched := n.matched[m.src := Min(m.match_, |n.log|)]);
      c' := Walk(c, p, n, c, AckAppend(p, m), n1);
      c' := AdvanceWalk(c, p, n1, c');
    }
  }

  /** The append step of Submit with its TryAdvanceCommit is a run of the protocol. */
  lemma SubmitIsRun(c: World, p: Id, command: Command) returns (c': World)
    requires p in c.cfg.peers && p in c.nodes && c.nodes[p].phase == Idle
    ensures Walks(c, p, OnSubmit(c.cfg.codec, p, c.cfg.peers, c.nodes[p], command), c')
  {
    hide Reaches, Advanced;
    var n := c.nodes[p];
    Stay(c, p);
    c' := c;
    if Admit(n, command) == Appended {
      c' := Walk(c, p, n, c, Submit(p, command), Extend(n, command));
      c' := AdvanceWalk(c, p, Extend(n, command), c');
    }
  }

  /** HandleRequestVote is a run of the protocol. */
  lemma VoteRequestIsRun(c: World, p: Id, m: Msg) returns (c': World)
    requires p in c.cfg.peers && p in c.nodes && c.nodes[p].phase == Idle && Receives(c, p, m) && m.VoteReq?
    ensures Walks(c, p, OnVoteRequest(c.nodes[p], m), c') && VoteAnswer(p, c.nodes[p], m) in c'.net
  {
    hide Reaches, Grants;
    var n := c.nodes[p];
    Stay(c, p);
    c' := c;
    var n1 := if m.term > n.term then StepDown(n, m.term) else n;
    if m.term > n.term { c' := Walk(c, p, n, c, Observe(p, m), n1); }
    GrantedVote(n1, m);
    c' := Walk(c, p, n1, c', AnswerVote(p, m), OnVoteRequest(n, m));
  }

  lemma GrantedVote(n: Node, m: Msg)
    requires m.VoteReq?
    ensures Grants(n, m) && n.vote.Some? ==> n.(vote := Some(m.src)) == n
  {}

  /** HandleRequestVoteResponse is a run of the protocol. */
  lemma VoteReplyIsRun(c: World, p: Id, m: Msg) returns (c': World)
    requires p in c.cfg.peers && p in c.nodes && c.nodes[p].phase == Idle && Receives(c, p, m) && m.VoteResp?
    ensures Walks(c, p, OnVoteReply(p, c.cfg.peers, c.nodes[p], m), c')
  {
    hide Reaches;
    var n := c.nodes[p];
    Stay(c, p);
    c' := c;
    if m.term > n.term {
      c' := Walk(c, p, n, c, Observe(p, m), StepDown(n, m.term));
    } else if n.role == Candidate && m.term == n.term && m.granted {
      var n1 := n.(granted := n.granted + {m.src});
      c' := Walk(c, p, n, c, CountVote(p, m), n1);
      if m.src !in n.granted && |n1.granted| >= |c.cfg.peers| / 2 + 1 {
        c' := Walk(c, p, n1, c', Win(p), Promote(p, n1, c.cfg.peers));
      }
    }
  }

  /** LoadState after a crash at any batch boundary is a run of the protocol. */
  lemma RestartIsRun(c: World, p: Id) returns (c': World)
    requires p in c.cfg.peers && p in c.nodes
    ensures Walks(c, p, OnRestart(c.cfg.codec, c.nodes[p]), c')
  {
    hide Reaches, Settle;
    var n := c.nodes[p];
    Stay(c, p);
    c' := Walk(c, p, n, c, Crash(p), Restart(n));
    c' := SettleWalk(c, p, Restart(n), c');
  }

  /** BecomeCandidate is a run of the protocol. */
  lemma CandidacyIsRun(c: World, p: Id) returns (c': World)
    requires p in c.cfg.peers && p in c.nodes && c.nodes[p].phase == Idle && c.nodes[p].role != Leader
    ensures Walks(c, p, OnTimeout(p, c.cfg.peers, c.nodes[p]), c')
  {
    hide Reaches;
    var n := c.nodes[p];
    Stay(c, p);
    c' := Walk(c, p, n, c, Timeout(p), Campaign(p, n));
    if 1 >= |c.cfg.peers| / 2 + 1 {
      assert |{p}| == 1;
      c' := Walk(c, p, Campaign(p, n), c', Win(p), Promote(p, Campaign(p, n), c.cfg.peers));
    }
  }

  /** HandleInstallSnapshotResponse is a run of the protocol. */
  lemma SnapshotReplyIsRun(c: World, p: Id, m: Msg) returns (c': World)
    requires p in c.cfg.peers && p in c.nodes && c.nodes[p].phase == Idle && Receives(c, p, m) && m.SnapResp? && m.src != p
    ensures Walks(c, p, OnSnapshotReply(c.nodes[p], m), c')
  {
    hide Reaches;
    var n := c.nodes[p];
    Stay(c, p);
    c' := c;
    if m.term > n.term {
      c' := Walk(c, p, n, c, Observe(p, m), StepDown(n, m.term));
    } else if OnSnapshotReply(n, m) != n {
      c' := Walk(c, p, n, c, AckSnapshot(p, m), OnSnapshotReply(n, m));
    }
  }

  // ----- reads are runs ---------------------------------------------------------

  /** HandleReadIndexRequest is a run of the protocol. */
  lemma ReadRequestIsRun(c: World, p: Id, m: Msg) returns (c': World)
    requires p in c.cfg.peers && p in c.nodes && c.nodes[p].phase == Idle && Receives(c, p, m) && m.ReadReq?
    ensures Walks(c, p, OnReadRequest(c.nodes[p], m), c') && ReadAnswer(p, c.nodes[p], m) in c'.net
  {
    hide Reaches;
    var n := c.nodes[p];
    Stay(c, p);
    c' := c;
    if m.term >= n.term { c' := ObserveWalk(c, p, m); }
    c' := Walk(c, p, OnReadRequest(n, m), c', AnswerRead(p, m), OnReadRequest(n, m));
  }

  /** Between handlers ApplyCommitted finds nothing to do. */
  lemma SettleIdle(codec: Codec, n: Node)
    requires Indexes(n) && n.phase == Idle
    ensures Settle(codec, n.(phase := Applying)) == n
  {}

  lemma ClosedIdle(codec: Codec, n: Node, confirmed: bool)
    requires Indexes(n) && n.phase == Idle
    ensures Closed(codec, n, confirmed) == n.(read := None)
  {
    SettleIdle(codec, n.(read := None));
  }

  /** A confirmed read is closed only once everything committed has been applied. */
  lemma ClosedApplies(codec: Codec, n: Node)
    ensures Closed(codec, n, true).phase == Idle ==> Closed(codec, n, true).applied >= n.commit
  {
    hide Drain;
    DrainKeeps(n.(read := None, phase := Applying));
  }

  /** The next read opens at the commit index: a leader of more than one peer with no active
      read always takes the head of its queue. */
  lemma ServeOpens(codec: Codec, p: Id, peers: set<Id>, n: Node, queue: seq<nat>)
    requires n.role == Leader && n.read == None && queue != [] && |peers| > 1
    ensures Serve(codec, p, peers, n, queue) ==
            (n.(read := Some(Read(queue[0], n.commit, {p})), lastRead := queue[0]), queue[1..])
  {}

  /** In a cluster of one the whole queue is served. */
  lemma {:induction false} ServeAlone(codec: Codec, p: Id, peers: set<Id>, n: Node, queue: seq<nat>)
    requires n.role == Leader && n.read == None && n.phase == Idle && Indexes(n) && |peers| <= 1
    ensures Serve(codec, p, peers, n, queue) ==
            (n.(lastRead := if queue == [] then n.lastRead else queue[|queue| - 1]), [])
    decreases |queue|
  {
    hide Closed, Indexes;
    if queue != [] {
      var n1 := OpenRead(p, n, queue[0]);
      SameIndexes(n, n1);
      SameIndexes(n, n1.(read := None));
      ClosedIdle(codec, n1, true);
      ServeAlone(codec, p, peers, n1.(read := None), queue[1..]);
    }
  }

  /** No read is left waiting without an active one, also when the node does not lead. */
  lemma {:induction false} ServeLeavesNone(codec: Codec, p: Id, peers: set<Id>, n: Node, queue: seq<nat>)
    ensures var r := Serve(codec, p, peers, n, queue); r.0.phase == Idle ==> r.0.read.Some? || r.1 == []
    decreases |queue|
  {
    hide Closed;
    if n.read.None? && queue != [] && n.role == Leader && |peers| <= 1 {
      ServeLeavesNone(codec, p, peers, Closed(codec, OpenRead(p, n, queue[0]), true), queue[1..]);
    }
  }

  /** Closing a read opens the next one, whether it was confirmed or timed out. */
  lemma FinishOpens(codec: Codec, p: Id, peers: set<Id>, n: Node, queue: seq<nat>, confirmed: bool)
    requires n.role == Leader && n.read.Some? && n.phase == Idle && Indexes(n) && queue != [] && |peers| > 1
    ensures Finish(codec, p, peers, n, queue, confirmed) ==
            (n.(read := Some(Read(queue[0], n.commit, {p})), lastRead := queue[0]), queue[1..])
  {
    hide Closed, Indexes, Serve;
    ClosedIdle(codec, n, confirmed);
    ServeOpens(codec, p, peers, n.(read := None), queue);
  }

  /** Reads are numbered upwards, above every read opened so far. */
  predicate Rising(last: nat, queue: seq<nat>) {
    (forall i :: 0 <= i < |queue| ==> last < queue[i]) && (forall i, j :: 0 <= i < j < |queue| ==> queue[i] < queue[j])
  }

  /** StartNextReadIndex is a run of the protocol. */
  lemma {:induction false} ServeIsRun(c: World, p: Id, n: Node, c': World, queue: seq<nat>) returns (c'': World)
    requires Walks(c, p, n, c') && n.phase == Idle && Indexes(n) && Rising(n.lastRead, queue)
    ensures Walks(c, p, Serve(c.cfg.codec, p, c.cfg.peers, n, queue).0, c'') && c'.net <= c''.net
    decreases |queue|
  {
    hide Reaches, Closed, Indexes;
    c'' := c';
    if n.read.None? && queue != [] && n.role == Leader {
      var n1 := OpenRead(p, n, queue[0]);
      c'' := Walk(c, p, n, c', StartRead(p, queue[0]), n1);
      if 1 >= |c.cfg.peers| / 2 + 1 {
        SameIndexes(n, n1);
        SameIndexes(n, n1.(read := None));
        ClosedIdle(c.cfg.codec, n1, true);
        c'' := Walk(c, p, n1, c'', FinishRead(p), n1.(read := None));
        c'' := ServeIsRun(c, p, n1.(read := None), c'', queue[1..]);
      }
    }
  }

  lemma SameIndexes(n: Node, n': Node)
    requires Indexes(n) && n' == n.(read := n'.read, lastRead := n'.lastRead)
    ensures Indexes(n')
  {}

  /** FinishReadIndex, confirmed or timed out, is a run of the protocol. */
  lemma FinishIsRun(c: World, p: Id, n: Node, c': World, queue: seq<nat>, confirmed: bool) returns (c'': World)
    requires Walks(c, p, n, c') && n.phase == Idle && n.read.Some? && Indexes(n) && Rising(n.lastRead, queue)
    ensures Walks(c, p, Finish(c.cfg.codec, p, c.cfg.peers, n, queue, confirmed).0, c'') && c'.net <= c''.net
  {
    hide Reaches, Closed, Indexes, Serve;
    ClosedIdle(c.cfg.codec, n, confirmed);
    SameIndexes(n, n.(read := None));
    c'' := Walk(c, p, n, c', FinishRead(p), n.(read := None));
    c'' := ServeIsRun(c, p, n.(read := None), c'', queue);
  }

  /** HandleReadIndexResponse is a run of the protocol. */
  lemma ReadReplyIsRun(c: World, p: Id, m: Msg, queue: seq<nat>) returns (c': World)
    requires p in c.cfg.peers && p in c.nodes && c.nodes[p].phase == Idle && Receives(c, p, m) && m.ReadResp?
    requires Indexes(c.nodes[p]) && Rising(c.nodes[p].lastRead, queue)
    ensures Walks(c, p, OnReadReply(c.cfg.codec, p, c.cfg.peers, c.nodes[p], m, queue).0, c')
  {
    hide Reaches, Finish, Indexes, Rising;
    var n := c.nodes[p];
    Stay(c, p);
    c' := c;
    if m.term > n.term {
      c' := Walk(c, p, n, c, Observe(p, m), StepDown(n, m.term));
    } else if Confirms(n, m) {
      var n1 := Acked(n, m.src);
      c' := Walk(c, p, n, c, AckRead(p, m), n1);
      if Completes(c.cfg.peers, n, m) {
        SameIndexes(n, n1);
        c' := FinishIsRun(c, p, n1, c', queue, true);
      }
    }
  }
}
