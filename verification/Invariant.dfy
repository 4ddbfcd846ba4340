/** The inductive invariant: facts about the history alone, about one node against the
    history, and about one message against the history. */
module Invariant {
  import opened Commands
  import opened Quorums
  import opened Cluster
  import opened Steps

  // ----- logs and lines ---------------------------------------------------------

  /** The log is a prefix of the line of its last term. */
  ghost predicate OnLine(h: History, log: seq<Entry>) {
    log == [] || (LastTerm(log) in h.lines && log <= h.lines[LastTerm(log)])
  }

  /** The first `j` entries of the line of term `t` are a prefix of `log`. */
  ghost predicate Holds(h: History, log: seq<Entry>, t: nat, j: nat) {
    t in h.lines && j <= |h.lines[t]| && h.lines[t][..j] <= log
  }

  /** Some term in (t, upto] was won without the first `j` entries of line `t`. */
  ghost predicate Lost(h: History, t: nat, j: nat, upto: nat) {
    exists s :: s in h.won && t < s <= upto && !Holds(h, h.won[s].log, t, j)
  }

  ghost predicate Ordered(log: seq<Entry>) {
    forall i, j :: 0 <= i <= j < |log| ==> log[i].term <= log[j].term
  }

  ghost predicate TermsWithin(log: seq<Entry>, top: nat) {
    forall i :: 0 <= i < |log| ==> 1 <= log[i].term <= top
  }

  ghost predicate LineOk(h: History, t: nat)
    requires t in h.won && t in h.lines
  {
    var line, start := h.lines[t], h.won[t].log;
    && t >= 1
    && start <= line
    && Ordered(line)
    && TermsWithin(start, t - 1)
    && (forall i :: |start| <= i < |line| ==> line[i].term == t)
    && (forall i :: 0 <= i < |line| ==>
          line[i].term in h.lines && line[..i + 1] <= h.lines[line[i].term])
  }

  ghost predicate Lines(h: History) {
    h.lines.Keys == h.won.Keys && forall t :: t in h.won ==> LineOk(h, t)
  }

  // ----- votes ------------------------------------------------------------------

  ghost predicate CandidacyOk(cfg: Config, h: History, k: (nat, Id))
    requires k in h.candidacy
  {
    k.1 in cfg.peers && k.0 >= 1 && OnLine(h, h.candidacy[k]) && TermsWithin(h.candidacy[k], k.0 - 1)
  }

  ghost predicate Candidacies(cfg: Config, h: History) {
    forall k :: k in h.candidacy ==> CandidacyOk(cfg, h, k)
  }

  ghost predicate BallotOk(cfg: Config, h: History, k: (nat, Id))
    requires k in h.ballots
  {
    var b := h.ballots[k];
    && k.1 in cfg.peers
    && (k.0, b.candidate) in h.candidacy
    && OnLine(h, b.log)
    && var run := h.candidacy[(k.0, b.candidate)];
       UpToDate(|run|, LastTerm(run), b.log)
  }

  ghost predicate Ballots(cfg: Config, h: History) {
    forall k :: k in h.ballots ==> BallotOk(cfg, h, k)
  }

  ghost predicate WonBy(cfg: Config, h: History, t: nat)
    requires t in h.won
  {
    var e := h.won[t];
    && Majority(e.voters, cfg.peers)
    && e.leader in cfg.peers
    && (t, e.leader) in h.candidacy
    && e.log == h.candidacy[(t, e.leader)]
    && forall q :: q in e.voters ==> (t, q) in h.ballots && h.ballots[(t, q)].candidate == e.leader
  }

  ghost predicate Elections(cfg: Config, h: History) {
    forall t :: t in h.won ==> WonBy(cfg, h, t)
  }

  // ----- acknowledgements and commits -------------------------------------------

  /** No node stored more of a line than there is. */
  ghost predicate AcksFit(h: History) {
    forall k :: k in h.acks ==> k.0 in h.lines && h.acks[k] <= |h.lines[k.0]|
  }

  /** A voter that had stored part of line `t` still held it when it voted in a later term,
      or had lost it to a term won in between. */
  ghost predicate VoterKept(h: History, t: nat, u: nat, q: Id, j: nat)
    requires (u, q) in h.ballots
  {
    || Holds(h, h.ballots[(u, q)].log, t, j)
    || (u >= 1 && Lost(h, t, j, u - 1))
    || (u in h.won && q !in h.won[u].voters)
  }

  ghost predicate VotersKept(h: History) {
    forall t: nat, u: nat, q, j: nat :: (t, q) in h.acks && (u, q) in h.ballots && t < u && j <= h.acks[(t, q)] ==>
      VoterKept(h, t, u, q, j)
  }

  ghost predicate CommitOk(cfg: Config, h: History, t: nat, i: nat)
    requires (t, i) in h.commits
  {
    && t in h.lines
    && 1 <= i <= |h.lines[t]|
    && h.lines[t][i - 1].term == t
    && Majority(h.commits[(t, i)], cfg.peers)
    && forall q :: q in h.commits[(t, i)] ==> (t, q) in h.acks && i <= h.acks[(t, q)]
  }

  ghost predicate Commits(cfg: Config, h: History) {
    forall t, i :: (t, i) in h.commits ==> CommitOk(cfg, h, t, i)
  }

  /** The first `c` entries of `log` are committed, by a commit of term at most `t`. */
  ghost predicate Safe(h: History, log: seq<Entry>, c: nat, t: nat) {
    c == 0 || exists s: nat, i: nat :: SafeBy(h, log, c, t, s, i)
  }

  ghost predicate SafeBy(h: History, log: seq<Entry>, c: nat, t: nat, s: nat, i: nat) {
    (s, i) in h.commits && s in h.lines && s <= t && c <= i <= |h.lines[s]| && c <= |log| &&
    log[..c] == h.lines[s][..c]
  }

  // ----- reads ------------------------------------------------------------------

  ghost predicate CaptureOk(cfg: Config, h: History, t: nat, id: nat)
    requires (t, id) in h.captures
  {
    var k := h.captures[(t, id)];
    && t in h.won
    && k.terms.Keys == cfg.peers
    && (forall s :: s in k.won ==> s in h.won && forall q :: q in h.won[s].voters ==> q in k.terms && s <= k.terms[q])
    && (forall s, i :: (s, i) in k.commits ==> (s, i) in h.commits && s in k.won)
    && (forall i :: (t, i) in k.commits ==> i <= k.index)
  }

  ghost predicate Captures(cfg: Config, h: History) {
    forall t, id :: (t, id) in h.captures ==> CaptureOk(cfg, h, t, id)
  }

  ghost predicate HistInv(cfg: Config, h: History) {
    && Lines(h)
    && Candidacies(cfg, h)
    && Ballots(cfg, h)
    && Elections(cfg, h)
    && AcksFit(h)
    && VotersKept(h)
    && Commits(cfg, h)
    && Captures(cfg, h)
  }

  // ----- one node ---------------------------------------------------------------

  /** Index arithmetic of a node. Between handlers fewer than eight committed entries are
      waiting for a snapshot, even though the commit index may have fallen. */
  ghost predicate Indexes(n: Node) {
    && n.snap <= n.applied <= n.stateIndex <= n.high <= |n.log|
    && n.commit <= n.high
    && n.dcommit <= n.high
    && (n.stateIndex < n.snap + SNAPSHOT_THRESHOLD ||
        (n.stateIndex <= n.commit && n.dcommit == n.commit && n.phase != Idle))
    && (n.phase != Applying ==> n.applied >= n.commit && n.dcommit == n.commit)
    && (n.phase == Idle ==> n.commit < n.snap + SNAPSHOT_THRESHOLD)
  }

  /** The store holds exactly the state its index says, and so does the snapshot. */
  ghost predicate StateOk(cfg: Config, n: Node)
    requires n.applied <= n.stateIndex <= |n.log| && n.snap <= |n.log|
  {
    && Accepted(n.log[..n.stateIndex])
    && n.state == Fold(n.log[..n.stateIndex])
    && (n.snap > 0 ==> n.snapData == cfg.codec.encode(Fold(n.log[..n.snap])))
    && (forall j :: n.applied <= j < n.stateIndex ==> n.log[j].command.HasId())
  }

  ghost predicate LogOk(h: History, n: Node) {
    OnLine(h, n.log) && TermsWithin(n.log, n.term) && Ordered(n.log)
  }

  ghost predicate VoteOk(cfg: Config, h: History, p: Id, n: Node) {
    && (forall t :: (t, p) in h.ballots ==> t <= n.term && (t == n.term ==> n.vote == Some(h.ballots[(t, p)].candidate)))
    && (n.vote.Some? ==> (n.term, p) in h.ballots && h.ballots[(n.term, p)].candidate == n.vote.value)
    && (forall t :: (t, p) in h.candidacy ==> t <= n.term)
    && (forall t :: t in h.won && h.won[t].leader == p ==> t <= n.term)
    && (n.role == Candidate ==>
          && (n.term, p) in h.candidacy
          && h.candidacy[(n.term, p)] == n.log
          && !(n.term in h.won && h.won[n.term].leader == p)
          && n.granted <= cfg.peers
          && forall q :: q in n.granted ==> (n.term, q) in h.ballots && h.ballots[(n.term, q)].candidate == p)
  }

  ghost predicate Kept(h: History, log: seq<Entry>, term: nat, t: nat, j: nat) {
    t <= term && (Holds(h, log, t, j) || Lost(h, t, j, term))
  }

  /** Nothing a node acknowledged is dropped, except to a later term that lacks it. */
  ghost predicate AckOk(h: History, p: Id, n: Node) {
    forall t: nat, j: nat :: (t, p) in h.acks && j <= h.acks[(t, p)] ==> Kept(h, n.log, n.term, t, j)
  }

  ghost predicate MatchOk(h: History, n: Node, q: Id)
    requires q in n.matched
  {
    n.matched[q] <= n.snap || ((n.term, q) in h.acks && n.matched[q] <= h.acks[(n.term, q)])
  }

  ghost predicate LeaderOk(cfg: Config, h: History, p: Id, n: Node) {
    n.role == Leader ==>
      && n.term in h.won
      && n.term in h.lines
      && h.won[n.term].leader == p
      && h.lines[n.term] == n.log
      && (n.term, p) in h.acks
      && h.acks[(n.term, p)] == |n.log|
      && n.matched.Keys <= cfg.peers - {p}
      && (forall q :: q in n.matched ==> MatchOk(h, n, q))
      && (n.snap <= n.commit || TermOf(n.log, n.snap) < n.term)
      && (forall i :: (n.term, i) in h.commits ==> i <= n.commit)
      && (forall id :: (n.term, id) in h.captures ==> id <= n.lastRead && h.captures[(n.term, id)].index <= n.commit)
  }

  ghost predicate ReadOk(cfg: Config, h: History, p: Id, n: Node) {
    n.read.Some? ==>
      var r := n.read.value;
      && n.role == Leader
      && (n.term, r.id) in h.captures
      && r.index == h.captures[(n.term, r.id)].index
      && r.acks <= cfg.peers
      && forall q :: q in r.acks ==> q in h.captures[(n.term, r.id)].terms && h.captures[(n.term, r.id)].terms[q] <= n.term
  }

  /** The bytes of the snapshot that stands for line `t` up to `i`. */
  ghost function SnapBytes(cfg: Config, h: History, t: nat, i: nat): Bytes
    requires t in h.lines && i <= |h.lines[t]|
  {
    cfg.codec.encode(Fold(h.lines[t][..i]))
  }

  ghost predicate BufferOk(cfg: Config, h: History, n: Node) {
    var b := n.incoming;
    b.active ==>
      && b.term in h.lines
      && 1 <= b.index <= |h.lines[b.term]|
      && h.lines[b.term][b.index - 1].term == b.term
      && (h.clean ==> b.data <= SnapBytes(cfg, h, b.term, b.index))
  }

  ghost predicate NodeInv(cfg: Config, h: History, p: Id, n: Node) {
    && Indexes(n)
    && (h.clean ==> StateOk(cfg, n))
    && LogOk(h, n)
    && VoteOk(cfg, h, p, n)
    && AckOk(h, p, n)
    && Safe(h, n.log, n.high, n.term)
    && LeaderOk(cfg, h, p, n)
    && ReadOk(cfg, h, p, n)
    && BufferOk(cfg, h, n)
  }

  // ----- one message ------------------------------------------------------------

  /** The bytes from `offset` on, up to the end when `done`. */
  ghost predicate ChunkOf(all: Bytes, offset: nat, data: Bytes, done: bool) {
    && offset + |data| <= |all|
    && data == all[offset..offset + |data|]
    && (done ==> offset + |data| == |all|)
  }

  ghost predicate MsgInv(cfg: Config, h: History, m: Msg) {
    m.src in cfg.peers &&
    match m
    case VoteReq(src, _, t, lastIndex, lastTerm) =>
      (t, src) in h.candidacy && lastIndex == |h.candidacy[(t, src)]| && lastTerm == LastTerm(h.candidacy[(t, src)])
    case VoteResp(src, dst, t, granted) =>
      granted ==> (t, src) in h.ballots && h.ballots[(t, src)].candidate == dst
    case AppendReq(_, _, t, prev, prevTerm, entries, commit) =>
      && t in h.lines
      && prev + |entries| <= |h.lines[t]|
      && prevTerm == TermOf(h.lines[t], prev)
      && entries == h.lines[t][prev..prev + |entries|]
      && commit <= prev + |entries|
      && Safe(h, h.lines[t], commit, t)
    case AppendResp(src, _, t, ok, match_) =>
      ok ==> (t, src) in h.acks && match_ <= h.acks[(t, src)]
    case SnapReq(_, _, t, index, indexTerm, offset, data, done, prefix) =>
      && t in h.lines
      && 1 <= index <= |h.lines[t]|
      && prefix == h.lines[t][..index]
      && indexTerm == h.lines[t][index - 1].term
      && Safe(h, h.lines[t], index, t)
      && (h.clean ==> ChunkOf(SnapBytes(cfg, h, t, index), offset, data, done) && Accepted(prefix))
    case SnapResp(_, _, _, _, _) => true
    case ReadReq(_, _, t, id) => (t, id) in h.captures
    case ReadResp(src, _, t, ok, id) =>
      ok ==> (t, id) in h.captures && src in h.captures[(t, id)].terms && h.captures[(t, id)].terms[src] <= t
  }

  /** No node has gone back to a term before the one a capture saw it in. */
  ghost predicate TermsPassed(nodes: map<Id, Node>, captures: map<(nat, nat), Capture>) {
    forall k, q :: k in captures && q in captures[k].terms ==> q in nodes && captures[k].terms[q] <= nodes[q].term
  }

  ghost predicate Inv(c: World) {
    && c.cfg.codec.Lossless()
    && c.nodes.Keys == c.cfg.peers
    && HistInv(c.cfg, c.h)
    && TermsPassed(c.nodes, c.h.captures)
    && (forall p :: p in c.nodes ==> NodeInv(c.cfg, c.h, p, c.nodes[p]))
    && (forall m :: m in c.net ==> MsgInv(c.cfg, c.h, m))
  }
}
