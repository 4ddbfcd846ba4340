/** The protocol of raft_node.cpp as a state machine over a whole cluster.

    Every node carries its full log; the pair (snap, log[snap..]) is what the code keeps
    as snapshot_index_ and log_. A step is one atomic write batch of one node, so a crash
    may fall between any two batches of a handler. The network is a growing set of
    messages: loss is a message never delivered, duplication one delivered twice. */
module Cluster {
  import opened Commands
  import opened Quorums

  const SNAPSHOT_THRESHOLD: nat := 8
  const MAX_ENTRIES_PER_RPC: nat := 64
  const CHUNK_SIZE: nat := 262144

  type Bytes = seq<nat>

  /** Snapshot serialization: some pair of functions that round-trips. */
  datatype Codec = Codec(encode: State -> Bytes, decode: Bytes -> Option<State>)
  {
    ghost predicate Lossless() { forall s: State :: decode(encode(s)) == Some(s) }
  }

  datatype Config = Config(peers: set<Id>, codec: Codec)

  datatype Role = Follower | Candidate | Leader

  /** Where a node stands in a handler that called ApplyCommitted. */
  datatype Phase = Idle | Applying | Compacting

  datatype Incoming = Incoming(active: bool, index: nat, term: nat, data: Bytes)

  datatype Read = Read(id: nat, index: nat, acks: set<Id>)

  datatype Node = Node(
    term: nat,
    vote: Option<Id>,
    log: seq<Entry>,
    snap: nat,
    snapData: Bytes,
    state: State,            // what the store holds
    stateIndex: nat,         // bookkeeping: the log prefix `state` stands for
    dcommit: nat,            // commit index in the store
    commit: nat,
    applied: nat,
    high: nat,               // bookkeeping: furthest index this node ever knew committed
    role: Role,
    granted: set<Id>,
    matched: map<Id, nat>,
    incoming: Incoming,
    read: Option<Read>,
    lastRead: nat,
    phase: Phase)

  datatype Msg =
    | VoteReq(src: Id, dst: Id, term: nat, lastIndex: nat, lastTerm: nat)
    | VoteResp(src: Id, dst: Id, term: nat, granted: bool)
    | AppendReq(src: Id, dst: Id, term: nat, prev: nat, prevTerm: nat, entries: seq<Entry>, commit: nat)
    | AppendResp(src: Id, dst: Id, term: nat, ok: bool, match_: nat)
    | SnapReq(src: Id, dst: Id, term: nat, index: nat, indexTerm: nat, offset: nat, data: Bytes,
              done: bool, prefix: seq<Entry>)   // `prefix`: the entries the snapshot stands for
    | SnapResp(src: Id, dst: Id, term: nat, ok: bool, next: nat)
    | ReadReq(src: Id, dst: Id, term: nat, id: nat)
    | ReadResp(src: Id, dst: Id, term: nat, ok: bool, id: nat)

  // ----- log arithmetic ---------------------------------------------------------

  function LastTerm(log: seq<Entry>): nat {
    if log == [] then 0 else log[|log| - 1].term
  }

  /** The term at a 1-based index, 0 outside the log. */
  function TermOf(log: seq<Entry>, i: nat): nat {
    if 0 < i <= |log| then log[i - 1].term else 0
  }

  /** TermAt on the compacted log: indexes below the snapshot have lost their term. */
  function TermAt(n: Node, i: nat): nat {
    if i < n.snap then 0 else TermOf(n.log, i)
  }

  /** The vote rule: is a candidate's (index, term) at least as recent as this log? */
  predicate UpToDate(lastIndex: nat, lastTerm: nat, log: seq<Entry>) {
    lastTerm > LastTerm(log) || (lastTerm == LastTerm(log) && lastIndex >= |log|)
  }

  function Min(a: nat, b: nat): nat { if a < b then a else b }

  function Max(a: nat, b: nat): nat { if a < b then b else a }

  // ----- what one node does -----------------------------------------------------

  function StepDown(n: Node, term: nat): Node {
    var m := if term > n.term then n.(term := term, vote := None) else n;
    m.(role := Follower, read := None)
  }

  function Campaign(p: Id, n: Node): Node {
    n.(role := Candidate, term := n.term + 1, vote := Some(p), granted := {p})
  }

  function Promote(p: Id, n: Node, peers: set<Id>): Node {
    n.(role := Leader, matched := map q | q in peers - {p} :: 0, lastRead := 0)
  }

  predicate Grants(n: Node, m: Msg)
    requires m.VoteReq?
  {
    m.term == n.term && (n.vote == None || n.vote == Some(m.src)) &&
    UpToDate(m.lastIndex, m.lastTerm, n.log)
  }

  /** The entry loop of HandleAppendEntries from position `at` on; None is the refusal to
      rewrite a committed index. */
  function Absorb(log: seq<Entry>, at: nat, entries: seq<Entry>, commit: nat): (r: Option<seq<Entry>>)
    requires at <= |log|
    ensures r.Some? ==> at + |entries| <= |r.value|
    decreases |entries|
  {
    if entries == [] then Some(log)
    else if at < |log| && log[at].term != entries[0].term && at + 1 <= commit then None
    else if at < |log| && log[at].term == entries[0].term then Absorb(log, at + 1, entries[1..], commit)
    else Absorb(log[..at] + [entries[0]], at + 1, entries[1..], commit)
  }

  /** The consistency check on the previous entry. */
  predicate Consistent(n: Node, m: Msg)
    requires m.AppendReq?
  {
    n.snap <= m.prev <= |n.log| && TermOf(n.log, m.prev) == m.prevTerm
  }

  function Merged(n: Node, m: Msg): Option<seq<Entry>>
    requires m.AppendReq?
  {
    if Consistent(n, m) then Absorb(n.log, m.prev, m.entries, n.commit) else None
  }

  function AppendOk(n: Node, m: Msg, log: seq<Entry>): Node
    requires m.AppendReq?
  {
    var commit := Min(m.commit, |log|);
    n.(log := log, commit := commit, high := Max(n.high, commit), phase := Applying)
  }

  /** One chunk of a snapshot: the buffer afterwards, or None when the chunk does not fit. */
  function Buffered(b: Incoming, m: Msg): Option<Incoming>
    requires m.SnapReq?
  {
    var b1 := if m.offset == 0 then Incoming(true, m.index, m.indexTerm, []) else b;
    if !b1.active || b1.index != m.index || b1.term != m.indexTerm || m.offset != |b1.data| then None
    else Some(b1.(data := b1.data + m.data))
  }

  predicate ValidChunk(m: Msg)
    requires m.SnapReq?
  {
    m.index != 0 && m.indexTerm != 0 && |m.data| <= CHUNK_SIZE
  }

  /** The chunk belongs to the snapshot this node already has. */
  predicate SameSnapshot(n: Node, m: Msg)
    requires m.SnapReq?
  {
    m.index == n.snap && m.indexTerm == TermOf(n.log, n.snap)
  }

  predicate KeepsSuffix(n: Node, m: Msg)
    requires m.SnapReq?
  {
    n.snap < m.index <= |n.log| && TermOf(n.log, m.index) == m.indexTerm
  }

  function Install(n: Node, m: Msg, data: Bytes, s: State): Node
    requires m.SnapReq?
  {
    var log := if KeepsSuffix(n, m) then n.log else m.prefix;
    var commit := Max(n.commit, m.index);
    n.(log := log, snap := m.index, snapData := data, state := s, stateIndex := m.index,
       commit := commit, dcommit := commit, applied := m.index, high := Max(n.high, m.index),
       incoming := Incoming(false, m.index, m.indexTerm, []), phase := Applying)
  }

  /** One turn of the ApplyCommitted loop. */
  function ApplyOne(n: Node): Node
    requires n.applied < |n.log|
  {
    n.(state := Execute(n.state, n.log[n.applied].command),
       stateIndex := Max(n.stateIndex, n.applied + 1),
       applied := n.applied + 1,
       dcommit := n.commit)
  }

  function Persist(n: Node): Node {
    n.(dcommit := n.commit, phase := Compacting)
  }

  predicate NeedsSnapshot(n: Node) {
    n.commit > n.snap && n.commit - n.snap >= SNAPSHOT_THRESHOLD
  }

  function Compact(codec: Codec, n: Node): Node {
    if NeedsSnapshot(n)
    then n.(snap := n.commit, snapData := codec.encode(n.state), phase := Idle)
    else n.(phase := Idle)
  }

  function Restart(n: Node): Node {
    var commit := Min(Max(n.dcommit, n.snap), |n.log|);
    n.(commit := commit, applied := Min(Max(n.applied, n.snap), commit), role := Follower,
       granted := {}, matched := map[], incoming := Incoming(false, 0, 0, []), read := None,
       lastRead := 0, phase := Applying)
  }

  // ----- history ----------------------------------------------------------------

  datatype Ballot = Ballot(candidate: Id, log: seq<Entry>)

  datatype Election = Election(leader: Id, log: seq<Entry>, voters: set<Id>)

  /** The moment a read recorded its index: every node's term, every term won so far and
      every commit made so far. */
  datatype Capture = Capture(index: nat, terms: map<Id, nat>, won: set<nat>, commits: set<(nat, nat)>)

  /** What has happened so far. Steps write it and never read it. */
  datatype History = History(
    candidacy: map<(nat, Id), seq<Entry>>,   // the log a candidate ran on
    ballots: map<(nat, Id), Ballot>,         // one vote per term and voter, with the voter's log
    won: map<nat, Election>,
    lines: map<nat, seq<Entry>>,             // the log of the leader of each term
    acks: map<(nat, Id), nat>,               // how much of a term's line a node has stored
    commits: map<(nat, nat), set<Id>>,       // (term, index) with the counted majority
    captures: map<(nat, nat), Capture>,      // (term, read id)
    clean: bool)                             // no restart has replayed an unidentified command
}
