/** Sending, reassembling and installing snapshots keeps the invariant. */
module SnapshotSteps {
  import opened Commands
  import opened Quorums
  import opened Cluster
  import opened Steps
  import opened Invariant
  import opened Growth
  import opened HistoryGrowth
  import opened Completeness
  import opened ReplicationSteps

  // ----- sending ----------------------------------------------------------------

  lemma ChunkSent(cfg: Config, h: History, p: Id, n: Node, q: Id, offset: nat)
    requires NodeInv(cfg, h, p, n) && n.role == Leader && p in cfg.peers
    requires 0 < n.snap <= |n.log| && offset <= |n.snapData|
    ensures MsgInv(cfg, h, SnapMsg(p, n, q, offset))
  {
    hide VoteOk, LogOk, AckOk, Safe, ReadOk, BufferOk, Accepted, Fold;
    if h.clean { AcceptedPrefix(n.log[..n.stateIndex], n.snap); }
    assert n.log[..n.stateIndex][..n.snap] == n.log[..n.snap];
    SafeShorter(h, n.log, n.high, n.snap, n.term);
    assert h.clean ==> SnapBytes(cfg, h, n.term, n.snap) == n.snapData;
  }

  lemma SendSnapshotKeeps(c: World, p: Id, q: Id, offset: nat)
    requires Inv(c) && Enabled(c, SendSnapshot(p, q, offset))
    ensures Inv(Do(c, SendSnapshot(p, q, offset)))
  {
    hide HistInv, NodeInv, MsgInv;
    ChunkSent(c.cfg, c.h, p, c.nodes[p], q, offset);
    FrameStill(c, p, c.nodes[p], {SnapMsg(p, c.nodes[p], q, offset)});
  }

  // ----- reassembling -----------------------------------------------------------

  /** A snapshot is named by its last index and term: every line through them agrees. */
  lemma SnapshotName(h: History, t: nat, i: nat)
    requires Lines(h) && t in h.lines && 1 <= i <= |h.lines[t]|
    ensures var u := h.lines[t][i - 1].term;
            u in h.lines && i <= |h.lines[u]| && h.lines[u][..i] == h.lines[t][..i] &&
            h.lines[u][i - 1].term == u
  {
    assert LineOk(h, t);
    assert h.lines[t][..i - 1 + 1] == h.lines[t][..i];
    var u := h.lines[t][i - 1].term;
    assert h.lines[t][..i] <= h.lines[u];
    assert h.lines[t][..i][i - 1] == h.lines[u][i - 1];
  }

  lemma Appended(b: Bytes, all: Bytes, k: nat)
    requires |b| + k <= |all| && b <= all
    ensures b + all[|b|..|b| + k] == all[..|b| + k]
  {}

  /** Chunk reassembly: whatever chunks were lost, repeated or interleaved before, the
      buffer is a prefix of the one snapshot it is labelled with, and the last chunk makes
      it the whole of it. */
  lemma Reassembly(cfg: Config, h: History, n: Node, m: Msg)
    requires Lines(h) && BufferOk(cfg, h, n) && m.SnapReq? && MsgInv(cfg, h, m)
    requires Buffered(n.incoming, m).Some?
    ensures BufferOk(cfg, h, n.(incoming := Buffered(n.incoming, m).value))
    ensures h.clean && m.done ==> Buffered(n.incoming, m).value.data == cfg.codec.encode(Fold(m.prefix))
  {
    hide Safe, Accepted, Lines, Fold;
    SnapshotName(h, m.term, m.index);
    if h.clean {
      var all := SnapBytes(cfg, h, m.term, m.index);
      assert all == SnapBytes(cfg, h, m.indexTerm, m.index);
      var b := if m.offset == 0 then [] else n.incoming.data;
      assert b <= all && |b| == m.offset;
      Appended(b, all, |m.data|);
      assert Buffered(n.incoming, m).value.data == all[..m.offset + |m.data|];
    }
  }

  // ----- installing -------------------------------------------------------------

  /** Keeping the suffix when the terms agree is merging the leader's prefix. */
  lemma InstallIsMerge(cfg: Config, h: History, n: Node, m: Msg)
    requires Lines(h) && LogOk(h, n) && n.term in h.lines && m.SnapReq? && MsgInv(cfg, h, m) && m.term == n.term
    requires n.snap < m.index
    ensures (if KeepsSuffix(n, m) then n.log else m.prefix) == Merge(n.log, h.lines[n.term][..m.index])
  {
    hide Safe, Accepted, Lines, OnLine;
    var line := h.lines[n.term];
    if KeepsSuffix(n, m) {
      SamePrefix(h, n.log, n.term, m.index);
    }
  }

  /** No committed entry is dropped: when the suffix goes, it was all above the high mark. */
  lemma InstallKeepsHigh(cfg: Config, h: History, n: Node, k: nat)
    requires HistInv(cfg, h) && Safe(h, n.log, n.high, n.term) && n.term in h.lines && k <= |h.lines[n.term]|
    ensures n.high <= |n.log| && n.log[..n.high] <= Merge(n.log, h.lines[n.term][..k])
    ensures h.lines[n.term][..k] <= Merge(n.log, h.lines[n.term][..k])
  {
    hide HistInv, Safe;
    SafeOnLaterLine(cfg, h, n.log, n.high, n.term, n.term);
    MergeKeeps(n.log, h.lines[n.term], k, n.log[..n.high]);
  }

  lemma InstallState(cfg: Config, n: Node, m: Msg, data: Bytes, s: State)
    requires Indexes(n) && m.SnapReq? && m.index >= 1 && |m.prefix| == m.index
    requires var log := Install(n, m, data, s).log; m.prefix <= log && n.log[..n.high] <= log
    ensures Indexes(Install(n, m, data, s))
    ensures Accepted(m.prefix) && data == cfg.codec.encode(Fold(m.prefix)) && s == Fold(m.prefix) ==>
              StateOk(cfg, Install(n, m, data, s))
  {
    var n' := Install(n, m, data, s);
    assert n'.log[..m.index] == m.prefix;
  }

  lemma InstallSafe(h: History, n: Node, m: Msg, log: seq<Entry>)
    requires Safe(h, n.log, n.high, n.term) && n.high <= |n.log| && n.log[..n.high] <= log
    requires m.SnapReq? && n.term in h.lines && m.index <= |h.lines[n.term]|
    requires Safe(h, h.lines[n.term], m.index, n.term) && h.lines[n.term][..m.index] <= log
    ensures Safe(h, log, Max(n.high, m.index), n.term)
  {
    Still(h, 0);
    SafeGrows(h, h, n.log, log, n.high, n.term, n.term);
    SafeGrows(h, h, h.lines[n.term], log, m.index, n.term, n.term);
  }

  lemma InstallNode(cfg: Config, h: History, p: Id, n: Node, m: Msg, data: Bytes, s: State)
    requires HistInv(cfg, h) && NodeInv(cfg, h, p, n) && n.role == Follower && m.SnapReq? && MsgInv(cfg, h, m)
    requires m.term == n.term && n.snap < m.index
    requires h.clean ==> data == cfg.codec.encode(Fold(m.prefix)) && s == Fold(m.prefix)
    ensures NodeInv(cfg, NoteAck(h, n.term, p, m.index), p, Install(n, m, data, s))
  {
    hide VotersKept, Candidacies, Ballots, Elections, Commits, Captures, Lines, AcksFit;
    hide StateOk, LogOk, VoteOk, AckOk, Safe, LeaderOk, ReadOk, BufferOk, Grows, Ours, OnLine, Accepted, Fold;
    hide KeepsSuffix;
    var h' := NoteAck(h, n.term, p, m.index);
    var n' := Install(n, m, data, s);
    InstallIsMerge(cfg, h, n, m);
    InstallKeepsHigh(cfg, h, n, m.index);
    InstallState(cfg, n, m, data, s);
    InstallSafe(h, n, m, n'.log);
    MergedLogOk(h, n, m.index);
    MergedAcks(h, p, n, n', m.index);
    AckGrows(h, p, n.term, m.index);
    SafeGrows(h, h', n'.log, n'.log, n'.high, n.term, n.term);
    BufferEmpty(cfg, h, n, n'.incoming);
    ReadSame(cfg, h, p, n, n.(incoming := n'.incoming));
    AppendRest(cfg, h, h', p, n.(incoming := n'.incoming), n');
  }

  lemma BufferEmpty(cfg: Config, h: History, n: Node, b: Incoming)
    requires !b.active
    ensures BufferOk(cfg, h, n.(incoming := b))
  {}

  lemma ReadSame(cfg: Config, h: History, p: Id, n: Node, n': Node)
    requires VoteOk(cfg, h, p, n) && ReadOk(cfg, h, p, n) && LeaderOk(cfg, h, p, n)
    requires n' == n.(incoming := n'.incoming)
    ensures VoteOk(cfg, h, p, n') && ReadOk(cfg, h, p, n') && LeaderOk(cfg, h, p, n')
  {
    if n.role == Leader {
      forall q | q in n'.matched ensures MatchOk(h, n', q) { assert MatchOk(h, n, q); }
    }
  }

  /** A change of the reassembly buffer alone. */
  lemma BufferNode(cfg: Config, h: History, p: Id, n: Node, b: Incoming)
    requires NodeInv(cfg, h, p, n) && BufferOk(cfg, h, n.(incoming := b))
    ensures NodeInv(cfg, h, p, n.(incoming := b))
  {
    ReadSame(cfg, h, p, n, n.(incoming := b));
    hide VoteOk, ReadOk, LeaderOk;
  }

  /** Bytes that do not parse are dropped. */
  lemma BufferDropped(cfg: Config, h: History, p: Id, n: Node, b: Incoming)
    requires NodeInv(cfg, h, p, n)
    ensures NodeInv(cfg, h, p, n.(incoming := b.(active := false, data := [])))
  {
    hide NodeInv;
    BufferEmpty(cfg, h, n, b.(active := false, data := []));
    BufferNode(cfg, h, p, n, b.(active := false, data := []));
  }

  lemma ChunkKeeps(cfg: Config, h: History, p: Id, n: Node, m: Msg)
    requires HistInv(cfg, h) && NodeInv(cfg, h, p, n) && n.role == Follower && m.SnapReq? && MsgInv(cfg, h, m)
    requires m.term == n.term && cfg.codec.Lossless()
    ensures NodeInv(cfg, if Installs(cfg, n, m) then NoteAck(h, n.term, p, m.index) else h, p, ChunkNode(cfg, n, m))
  {
    hide HistInv, Indexes, StateOk, LogOk, VoteOk, AckOk, Safe, LeaderOk, ReadOk, BufferOk, MsgInv, Install;
    hide ValidChunk, SameSnapshot;
    var b := Buffered(n.incoming, m);
    if ValidChunk(m) && !SameSnapshot(n, m) && m.index > n.snap && b.Some? {
      HistAcksFit(cfg, h);
      Reassembly(cfg, h, n, m);
      if !m.done {
        BufferNode(cfg, h, p, n, b.value);
      } else {
        var s := cfg.codec.decode(b.value.data);
        assert h.clean ==> s == Some(Fold(m.prefix));
        if s.Some? {
          InstallNode(cfg, h, p, n, m, b.value.data, s.value);
        } else {
          BufferDropped(cfg, h, p, n, b.value);
        }
      }
    }
  }

  lemma ChunkHistory(cfg: Config, h: History, p: Id, n: Node, m: Msg)
    requires HistInv(cfg, h) && VoteOk(cfg, h, p, n) && m.SnapReq? && MsgInv(cfg, h, m)
    requires m.term == n.term
    ensures var h' := if Installs(cfg, n, m) then NoteAck(h, n.term, p, m.index) else h;
            HistInv(cfg, h') && Grows(h, h') && Ours(h, h', p) && h'.captures == h.captures
  {
    hide HistInv, VoteOk, Safe, Accepted, Fold, Installs, Grows, Ours;
    Still(h, p);
    if Installs(cfg, n, m) {
      AckHistory(cfg, h, p, n, m.index);
    }
  }

  lemma ReplyOk(cfg: Config, h: History, p: Id, n: Node, m: Msg)
    requires m.SnapReq? && p in cfg.peers
    ensures MsgInv(cfg, h, ChunkReply(cfg, p, n, m))
  {}

  lemma AnswerSnapshotKeeps(c: World, p: Id, m: Msg)
    requires Inv(c) && Enabled(c, AnswerSnapshot(p, m))
    ensures Inv(Do(c, AnswerSnapshot(p, m)))
  {
    hide HistInv, Indexes, StateOk, LogOk, VoteOk, AckOk, Safe, LeaderOk, ReadOk, BufferOk, MsgInv, Grows, Ours;
    hide ChunkReply;
    var n := c.nodes[p];
    assert NodeInv(c.cfg, c.h, p, n) && MsgInv(c.cfg, c.h, m);
    var h' := if Installs(c.cfg, n, m) then NoteAck(c.h, n.term, p, m.index) else c.h;
    ReplyOk(c.cfg, h', p, n, m);
    if m.term < n.term {
      FrameStill(c, p, n, {ChunkReply(c.cfg, p, n, m)});
    } else {
      ChunkHistory(c.cfg, c.h, p, n, m);
      ChunkKeeps(c.cfg, c.h, p, n, m);
      ChunkTerm(c.cfg, n, m);
      hide NodeInv, Installs, ChunkNode;
      Frame(c, p, ChunkNode(c.cfg, n, m), {ChunkReply(c.cfg, p, n, m)}, h');
    }
  }

  lemma ChunkTerm(cfg: Config, n: Node, m: Msg)
    requires m.SnapReq?
    ensures ChunkNode(cfg, n, m).term == n.term
  {}
}
