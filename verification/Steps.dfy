/** The steps of a cluster. `Enabled` is the guard the code checks, `Do` the effect. */
module Steps {
  import opened Commands
  import opened Quorums
  import opened Cluster

  datatype World = World(cfg: Config, nodes: map<Id, Node>, net: set<Msg>, h: History)

  datatype Step =
    | Timeout(p: Id)
    | AskVote(p: Id, q: Id)
    | Observe(p: Id, m: Msg)
    | AnswerVote(p: Id, m: Msg)
    | CountVote(p: Id, m: Msg)
    | Win(p: Id)
    | Submit(p: Id, command: Command)
    | SendAppend(p: Id, q: Id, next: nat)
    | AnswerAppend(p: Id, m: Msg)
    | AckAppend(p: Id, m: Msg)
    | Advance(p: Id, index: nat)
    | SendSnapshot(p: Id, q: Id, offset: nat)
    | AnswerSnapshot(p: Id, m: Msg)
    | AckSnapshot(p: Id, m: Msg)
    | ApplyNext(p: Id)
    | PersistProgress(p: Id)
    | CompactLog(p: Id)
    | Crash(p: Id)
    | StartRead(p: Id, id: nat)
    | AskRead(p: Id, q: Id)
    | AnswerRead(p: Id, m: Msg)
    | AckRead(p: Id, m: Msg)
    | FinishRead(p: Id)

  const FRESH_NODE := Node(0, None, [], 0, [], EMPTY, 0, 0, 0, 0, 0, Follower, {}, map[],
                           Incoming(false, 0, 0, []), None, 0, Idle)

  const NO_HISTORY := History(map[], map[], map[], map[], map[], map[], map[], true)

  ghost predicate Init(c: World) {
    c.cfg.codec.Lossless() &&
    c == World(c.cfg, map p | p in c.cfg.peers :: FRESH_NODE, {}, NO_HISTORY)
  }

  /** One node moves, sends and leaves a trace. */
  function Moved(c: World, p: Id, n: Node, sent: set<Msg>, h: History): World {
    c.(nodes := c.nodes[p := n], net := c.net + sent, h := h)
  }

  // ----- elections --------------------------------------------------------------

  predicate MayObserve(n: Node, m: Msg) {
    m.term > n.term ||
    (m.term == n.term && n.role != Follower && (m.AppendReq? || m.SnapReq? || m.ReadReq?))
  }

  function NoteCampaign(h: History, p: Id, n: Node): History {
    h.(candidacy := h.candidacy[(n.term + 1, p) := n.log],
       ballots := h.ballots[(n.term + 1, p) := Ballot(p, n.log)])
  }

  function NoteBallot(h: History, p: Id, n: Node, candidate: Id): History {
    h.(ballots := h.ballots[(n.term, p) := Ballot(candidate, n.log)])
  }

  function VoteNode(n: Node, m: Msg): Node
    requires m.VoteReq?
  {
    if Grants(n, m) && n.vote == None then n.(vote := Some(m.src)) else n
  }

  function NoteWin(h: History, p: Id, n: Node): History {
    h.(won := h.won[n.term := Election(p, n.log, n.granted)],
       lines := h.lines[n.term := n.log],
       acks := h.acks[(n.term, p) := |n.log|])
  }

  // ----- replication ------------------------------------------------------------

  function Extend(n: Node, command: Command): Node {
    n.(log := n.log + [Entry(n.term, command)])
  }

  /** The leader's log, which it has stored, is the line of its term. */
  function NoteLine(h: History, p: Id, n: Node): History {
    h.(lines := h.lines[n.term := n.log], acks := h.acks[(n.term, p) := |n.log|])
  }

  function AppendMsg(p: Id, n: Node, q: Id, next: nat): Msg
    requires 0 < next <= |n.log| + 1
  {
    var upto := Min(next - 1 + MAX_ENTRIES_PER_RPC, |n.log|);
    AppendReq(p, q, n.term, next - 1, TermAt(n, next - 1), n.log[next - 1..upto], n.commit)
  }

  function NoteAck(h: History, t: nat, p: Id, index: nat): History {
    h.(acks := h.acks[(t, p) := if (t, p) in h.acks then Max(h.acks[(t, p)], index) else index])
  }

  predicate Takes(n: Node, m: Msg)
    requires m.AppendReq?
  {
    m.term == n.term && Merged(n, m).Some?
  }

  function AppendNode(n: Node, m: Msg): Node
    requires m.AppendReq?
  {
    if Takes(n, m) then AppendOk(n, m, Merged(n, m).value) else n
  }

  function AppendReply(p: Id, n: Node, m: Msg): Msg
    requires m.AppendReq?
  {
    if Takes(n, m) then AppendResp(p, m.src, n.term, true, m.prev + |m.entries|)
    else AppendResp(p, m.src, n.term, false, |n.log|)
  }

  predicate MayAck(p: Id, n: Node, m: Msg) {
    m.dst == p && m.src != p && n.role == Leader && m.term == n.term
  }

  /** The peers counted for an index: those whose match index reaches it, and the leader. */
  function Holders(p: Id, n: Node, index: nat): set<Id> {
    {p} + set q | q in n.matched && n.matched[q] >= index
  }

  predicate Eligible(c: World, p: Id, index: nat)
    requires p in c.nodes
  {
    var n := c.nodes[p];
    n.role == Leader && n.commit < index <= |n.log| && TermAt(n, index) == n.term &&
    |Holders(p, n, index)| > |c.cfg.peers| / 2
  }

  function CommitTo(n: Node, index: nat): Node {
    n.(commit := index, high := Max(n.high, index), phase := Applying)
  }

  function NoteCommit(h: History, p: Id, n: Node, index: nat): History {
    h.(commits := h.commits[(n.term, index) := Holders(p, n, index)])
  }

  // ----- snapshots --------------------------------------------------------------

  function SnapMsg(p: Id, n: Node, q: Id, offset: nat): Msg
    requires offset <= |n.snapData| && n.snap <= |n.log|
  {
    var upto := Min(offset + CHUNK_SIZE, |n.snapData|);
    SnapReq(p, q, n.term, n.snap, TermOf(n.log, n.snap), offset, n.snapData[offset..upto],
            upto == |n.snapData|, n.log[..n.snap])
  }

  /** HandleInstallSnapshot on a message of the current term. */
  function ChunkNode(cfg: Config, n: Node, m: Msg): Node
    requires m.SnapReq?
  {
    if !ValidChunk(m) || SameSnapshot(n, m) || m.index <= n.snap then n
    else
      var b := Buffered(n.incoming, m);
      if b.None? then n
      else if !m.done then n.(incoming := b.value)
      else
        var s := cfg.codec.decode(b.value.data);
        if s.None? then n.(incoming := b.value.(active := false, data := []))
        else Install(n, m, b.value.data, s.value)
  }

  function ChunkReply(cfg: Config, p: Id, n: Node, m: Msg): Msg
    requires m.SnapReq?
  {
    if m.term < n.term then
      SnapResp(p, m.src, n.term, false, if n.incoming.active then |n.incoming.data| else 0)
    else if !ValidChunk(m) then SnapResp(p, m.src, n.term, false, 0)
    else if SameSnapshot(n, m) then SnapResp(p, m.src, n.term, true, |n.snapData|)
    else
      var b := Buffered(n.incoming, m);
      if m.index <= n.snap || b.None? then SnapResp(p, m.src, n.term, false, 0)
      else if m.done && cfg.codec.decode(b.value.data).None? then SnapResp(p, m.src, n.term, false, 0)
      else SnapResp(p, m.src, n.term, true, |b.value.data|)
  }

  predicate Installs(cfg: Config, n: Node, m: Msg)
    requires m.SnapReq?
  {
    m.term == n.term && ValidChunk(m) && !SameSnapshot(n, m) && m.index > n.snap &&
    Buffered(n.incoming, m).Some? && m.done &&
    cfg.codec.decode(Buffered(n.incoming, m).value.data).Some?
  }

  // ----- reads ------------------------------------------------------------------

  function OpenRead(p: Id, n: Node, id: nat): Node {
    n.(read := Some(Read(id, n.commit, {p})), lastRead := id)
  }

  function NoteRead(h: History, nodes: map<Id, Node>, n: Node, id: nat): History {
    h.(captures := h.captures[(n.term, id) :=
         Capture(n.commit, map q | q in nodes :: nodes[q].term, h.won.Keys, h.commits.Keys)])
  }

  // ----- all steps --------------------------------------------------------------

  /** A restart replays only identified commands (none at all when the stored commit index
      covers the stored last-applied index). */
  predicate ReplaySafe(n: Node) {
    forall j :: Restart(n).applied <= j < n.stateIndex && j < |n.log| ==> n.log[j].command.HasId()
  }

  function NoteCrash(h: History, n: Node): History {
    h.(clean := h.clean && ReplaySafe(n))
  }

  predicate Receives(c: World, p: Id, m: Msg) { m in c.net && m.dst == p }

  predicate Enabled(c: World, s: Step) {
    s.p in c.cfg.peers && s.p in c.nodes &&
    var n := c.nodes[s.p];
    match s
    case ApplyNext(p) => n.phase == Applying && n.applied < n.commit && n.applied < |n.log| &&
                         Applicable(n.state, n.log[n.applied].command)
    case PersistProgress(p) => n.phase == Applying && n.applied >= n.commit
    case CompactLog(p) => n.phase == Compacting
    case Crash(p) => true
    case Timeout(p) => n.phase == Idle && n.role != Leader
    case AskVote(p, q) => n.phase == Idle && n.role == Candidate
    case Observe(p, m) => n.phase == Idle && Receives(c, p, m) && MayObserve(n, m)
    case AnswerVote(p, m) => n.phase == Idle && Receives(c, p, m) && m.VoteReq? && m.term <= n.term
    case CountVote(p, m) => n.phase == Idle && Receives(c, p, m) && m.VoteResp? && m.granted &&
                            n.role == Candidate && m.term == n.term
    case Win(p) => n.phase == Idle && n.role == Candidate && |n.granted| >= |c.cfg.peers| / 2 + 1
    case Submit(p, command) => n.phase == Idle && n.role == Leader
    case SendAppend(p, q, next) => n.phase == Idle && n.role == Leader && n.snap < next <= |n.log| + 1
    case AnswerAppend(p, m) => n.phase == Idle && Receives(c, p, m) && m.AppendReq? &&
                               (m.term < n.term || (m.term == n.term && n.role == Follower))
    case AckAppend(p, m) => n.phase == Idle && Receives(c, p, m) && m.AppendResp? && m.ok && MayAck(p, n, m)
    case Advance(p, index) => n.phase == Idle && Eligible(c, p, index)
    case SendSnapshot(p, q, offset) => n.phase == Idle && n.role == Leader && 0 < n.snap <= |n.log| &&
                                       offset <= |n.snapData|
    case AnswerSnapshot(p, m) => n.phase == Idle && Receives(c, p, m) && m.SnapReq? &&
                                 (m.term < n.term || (m.term == n.term && n.role == Follower))
    case AckSnapshot(p, m) => n.phase == Idle && Receives(c, p, m) && m.SnapResp? && m.ok && MayAck(p, n, m) &&
                              m.next == |n.snapData|
    case StartRead(p, id) => n.phase == Idle && n.role == Leader && n.read == None && id > n.lastRead
    case AskRead(p, q) => n.phase == Idle && n.role == Leader && n.read.Some?
    case AnswerRead(p, m) => n.phase == Idle && Receives(c, p, m) && m.ReadReq? &&
                             (m.term < n.term || (m.term == n.term && n.role == Follower))
    case AckRead(p, m) => n.phase == Idle && Receives(c, p, m) && m.ReadResp? && m.ok && n.role == Leader &&
                          m.term == n.term && n.read.Some? && m.id == n.read.value.id
    case FinishRead(p) => n.phase == Idle && n.read.Some?
  }

  /** The node that moves, afterwards. */
  function NodeAfter(c: World, s: Step): Node
    requires Enabled(c, s)
  {
    var n := c.nodes[s.p];
    match s
    case Timeout(p) => Campaign(p, n)
    case AskVote(p, q) => n
    case Observe(p, m) => StepDown(n, m.term)
    case AnswerVote(p, m) => VoteNode(n, m)
    case CountVote(p, m) => n.(granted := n.granted + {m.src})
    case Win(p) => Promote(p, n, c.cfg.peers)
    case Submit(p, command) => Extend(n, command)
    case SendAppend(p, q, next) => n
    case AnswerAppend(p, m) => AppendNode(n, m)
    case AckAppend(p, m) => n.(matched := n.matched[m.src := Min(m.match_, |n.log|)])
    case Advance(p, index) => CommitTo(n, index)
    case SendSnapshot(p, q, offset) => n
    case AnswerSnapshot(p, m) => if m.term < n.term then n else ChunkNode(c.cfg, n, m)
    case AckSnapshot(p, m) => n.(matched := n.matched[m.src := n.snap])
    case ApplyNext(p) => ApplyOne(n)
    case PersistProgress(p) => Persist(n)
    case CompactLog(p) => Compact(c.cfg.codec, n)
    case Crash(p) => Restart(n)
    case StartRead(p, id) => OpenRead(p, n, id)
    case AskRead(p, q) => n
    case AnswerRead(p, m) => n
    case AckRead(p, m) => n.(read := Some(n.read.value.(acks := n.read.value.acks + {m.src})))
    case FinishRead(p) => n.(read := None)
  }

  /** The messages it sends. */
  function Sent(c: World, s: Step): set<Msg>
    requires Enabled(c, s)
  {
    var n := c.nodes[s.p];
    match s
    case AskVote(p, q) => {VoteReq(p, q, n.term, |n.log|, LastTerm(n.log))}
    case AnswerVote(p, m) => {VoteResp(p, m.src, n.term, Grants(n, m))}
    case SendAppend(p, q, next) => {AppendMsg(p, n, q, next)}
    case AnswerAppend(p, m) => {AppendReply(p, n, m)}
    case SendSnapshot(p, q, offset) => {SnapMsg(p, n, q, offset)}
    case AnswerSnapshot(p, m) => {ChunkReply(c.cfg, p, n, m)}
    case AskRead(p, q) => {ReadReq(p, q, n.term, n.read.value.id)}
    case AnswerRead(p, m) => {ReadResp(p, m.src, n.term, m.term == n.term, m.id)}
    case _ => {}
  }

  /** The trace it leaves. */
  function Trace(c: World, s: Step): History
    requires Enabled(c, s)
  {
    var n := c.nodes[s.p];
    match s
    case Timeout(p) => NoteCampaign(c.h, p, n)
    case AnswerVote(p, m) => if Grants(n, m) && n.vote == None then NoteBallot(c.h, p, n, m.src) else c.h
    case Win(p) => NoteWin(c.h, p, n)
    case Submit(p, command) => NoteLine(c.h, p, Extend(n, command))
    case AnswerAppend(p, m) => if Takes(n, m) then NoteAck(c.h, n.term, p, m.prev + |m.entries|) else c.h
    case Advance(p, index) => NoteCommit(c.h, p, n, index)
    case AnswerSnapshot(p, m) => if Installs(c.cfg, n, m) then NoteAck(c.h, n.term, p, m.index) else c.h
    case Crash(p) => NoteCrash(c.h, n)
    case StartRead(p, id) => NoteRead(c.h, c.nodes, n, id)
    case _ => c.h
  }

  function Do(c: World, s: Step): World
    requires Enabled(c, s)
  {
    Moved(c, s.p, NodeAfter(c, s), Sent(c, s), Trace(c, s))
  }

  ghost predicate Next(c: World, c': World) {
    exists s :: Enabled(c, s) && c' == Do(c, s)
  }

  /** A run from the initial state. */
  ghost predicate Run(cs: seq<World>) {
    |cs| > 0 && Init(cs[0]) && forall k :: 0 <= k < |cs| - 1 ==> Next(cs[k], cs[k + 1])
  }
}
