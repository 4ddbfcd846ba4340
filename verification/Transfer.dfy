/** Snapshot transfer: the exchange of InstallSnapshot requests and responses between one
    leader and one follower, with nothing lost. */
module Transfer {
  import opened Commands
  import opened Quorums
  import opened Cluster
  import opened Steps
  import opened Invariant
  import opened SnapshotSteps
  import Completeness
  import Handlers
  import ReplicationSteps
  import Safety

  // ----- one request ------------------------------------------------------------

  function Clamp(l: Node, offset: nat): nat { if offset > |l.snapData| then 0 else offset }

  /** Request, response, and where the leader continues; None when it is done. */
  function Turn(cfg: Config, p: Id, q: Id, l: Node, f: Node, offset: nat): (Node, Option<nat>)
    requires l.snap <= |l.log|
  {
    var m := SnapMsg(p, l, q, Clamp(l, offset));
    var r := ChunkReply(cfg, q, f, m);
    (ChunkNode(cfg, f, m),
     if r.ok && r.next == |l.snapData| then None else Some(Handlers.OffsetAfter(|l.snapData|, r.ok, r.next)))
  }

  /** The buffer continues the leader's snapshot at this offset. */
  predicate Fits(l: Node, b: Incoming, offset: nat) {
    offset == 0 || (b.active && b.index == l.snap && b.term == TermOf(l.log, l.snap) && |b.data| == offset)
  }

  /** The follower lacks the leader's snapshot and its buffer, if labelled with that
      snapshot, holds a beginning of it. */
  ghost predicate Receiving(cfg: Config, l: Node, f: Node) {
    && 0 < l.snap <= |l.log| && TermOf(l.log, l.snap) != 0 && cfg.codec.decode(l.snapData).Some?
    && f.term == l.term && f.snap < l.snap
    && (f.incoming.active && f.incoming.index == l.snap && f.incoming.term == TermOf(l.log, l.snap) ==>
          f.incoming.data <= l.snapData)
  }

  /** The leader of a term and a follower behind its snapshot are in that situation. */
  lemma PairReceiving(c: World, p: Id, q: Id)
    requires Inv(c) && c.h.clean && p in c.nodes && q in c.nodes && c.nodes[p].role == Leader
    requires c.nodes[q].term == c.nodes[p].term && c.nodes[q].snap < c.nodes[p].snap
    ensures Receiving(c.cfg, c.nodes[p], c.nodes[q])
    ensures c.cfg.codec.decode(c.nodes[p].snapData) == Some(Fold(c.nodes[p].log[..c.nodes[p].snap]))
  {
    hide HistInv, MsgInv, VoteOk, AckOk, Safe, ReadOk, LeaderOk, OnLine, Ordered, Accepted, Fold;
    var l, f := c.nodes[p], c.nodes[q];
    assert NodeInv(c.cfg, c.h, p, l) && NodeInv(c.cfg, c.h, q, f);
    Safety.LeaderWon(c, p);
    ReplicationSteps.HistAcksFit(c.cfg, c.h);
    SnapshotName(c.h, l.term, l.snap);
    assert SnapBytes(c.cfg, c.h, TermOf(l.log, l.snap), l.snap) == l.snapData;
  }

  /** The whole snapshot, installed on the follower. */
  function Installed(cfg: Config, p: Id, q: Id, l: Node, f: Node): Node
    requires l.snap <= |l.log| && cfg.codec.decode(l.snapData).Some?
  {
    Install(f, SnapMsg(p, l, q, 0), l.snapData, cfg.codec.decode(l.snapData).value)
  }

  /** A request that fits adds its bytes, or installs the snapshot if they are the last. */
  lemma TurnFits(cfg: Config, p: Id, q: Id, l: Node, f: Node, offset: nat)
    requires Receiving(cfg, l, f) && offset <= |l.snapData| && Fits(l, f.incoming, offset)
    ensures Turn(cfg, p, q, l, f, offset) ==
              if offset + CHUNK_SIZE < |l.snapData|
              then (f.(incoming := Incoming(true, l.snap, TermOf(l.log, l.snap), l.snapData[..offset + CHUNK_SIZE])),
                    Some(offset + CHUNK_SIZE))
              else (Installed(cfg, p, q, l, f), None)
  {
    var m := SnapMsg(p, l, q, offset);
    var before := if offset == 0 then [] else f.incoming.data;
    assert before == l.snapData[..offset];
    Appended(before, l.snapData, |m.data|);
    assert l.snapData[..|l.snapData|] == l.snapData;
    var b := Buffered(f.incoming, m);
    assert b == Some(Incoming(true, l.snap, TermOf(l.log, l.snap), l.snapData[..offset + |m.data|]));
  }

  /** Any other request is refused and the leader starts over. */
  lemma TurnMisfits(cfg: Config, p: Id, q: Id, l: Node, f: Node, offset: nat)
    requires Receiving(cfg, l, f) && offset <= |l.snapData| && !Fits(l, f.incoming, offset)
    ensures Turn(cfg, p, q, l, f, offset) == (f, Some(0))
  {
    var m := SnapMsg(p, l, q, offset);
    assert Buffered(f.incoming, m) == None;
  }

  // ----- the whole transfer -----------------------------------------------------

  /** Follower and continuation after at most `k` requests. */
  function After(cfg: Config, p: Id, q: Id, l: Node, f: Node, offset: nat, k: nat): (Node, Option<nat>)
    requires l.snap <= |l.log|
    decreases k
  {
    if k == 0 then (f, Some(offset))
    else
      var t := Turn(cfg, p, q, l, f, offset);
      if t.1.None? then t else After(cfg, p, q, l, t.0, t.1.value, k - 1)
  }

  /** Requests for `size` bytes in chunks; an empty snapshot takes one as well. */
  function Requests(size: nat): nat { Max(1, (size + CHUNK_SIZE - 1) / CHUNK_SIZE) }

  lemma InstalledAnyBuffer(cfg: Config, p: Id, q: Id, l: Node, f: Node, b: Incoming)
    requires Receiving(cfg, l, f)
    ensures Installed(cfg, p, q, l, f.(incoming := b)) == Installed(cfg, p, q, l, f)
  {}

  /** From an offset the buffer has reached, the transfer takes exactly one request per
      chunk that is left and then the snapshot is installed, not earlier. */
  lemma {:induction false} TransferCompletes(cfg: Config, p: Id, q: Id, l: Node, f: Node, offset: nat)
    requires Receiving(cfg, l, f) && offset <= |l.snapData| && Fits(l, f.incoming, offset)
    ensures After(cfg, p, q, l, f, offset, Requests(|l.snapData| - offset)) == (Installed(cfg, p, q, l, f), None)
    ensures forall k :: 0 <= k < Requests(|l.snapData| - offset) ==> After(cfg, p, q, l, f, offset, k).1.Some?
    decreases |l.snapData| - offset
  {
    hide Turn, Installed;
    TurnFits(cfg, p, q, l, f, offset);
    var size := |l.snapData| - offset;
    if size > CHUNK_SIZE {
      var b := Incoming(true, l.snap, TermOf(l.log, l.snap), l.snapData[..offset + CHUNK_SIZE]);
      TransferCompletes(cfg, p, q, l, f.(incoming := b), offset + CHUNK_SIZE);
      InstalledAnyBuffer(cfg, p, q, l, f, b);
      assert Requests(size) == 1 + Requests(size - CHUNK_SIZE);
      forall k | 0 <= k < Requests(size) ensures After(cfg, p, q, l, f, offset, k).1.Some? {
        if k > 0 { assert After(cfg, p, q, l, f.(incoming := b), offset + CHUNK_SIZE, k - 1).1.Some?; }
      }
    }
  }

  lemma AfterTurn(cfg: Config, p: Id, q: Id, l: Node, f: Node, offset: nat, k: nat)
    requires l.snap <= |l.log| && k > 0
    ensures var t := Turn(cfg, p, q, l, f, Clamp(l, offset));
            After(cfg, p, q, l, f, offset, k) == if t.1.None? then t else After(cfg, p, q, l, t.0, t.1.value, k - 1)
  {}

  /** Whatever the follower had buffered and wherever the leader thought it was, at most one
      request is wasted. */
  lemma TransferFromAnywhere(cfg: Config, p: Id, q: Id, l: Node, f: Node, offset: nat)
    requires Receiving(cfg, l, f)
    ensures exists k: nat :: k <= 1 + Requests(|l.snapData|) &&
                             After(cfg, p, q, l, f, offset, k) == (Installed(cfg, p, q, l, f), None)
  {
    hide Turn, Installed, After;
    var at := Clamp(l, offset);
    if Fits(l, f.incoming, at) {
      var k := Requests(|l.snapData| - at);
      TransferCompletes(cfg, p, q, l, f, at);
      AfterTurn(cfg, p, q, l, f, offset, k);
      AfterTurn(cfg, p, q, l, f, at, k);
      assert k <= 1 + Requests(|l.snapData|);
    } else {
      var k := Requests(|l.snapData|);
      TurnMisfits(cfg, p, q, l, f, at);
      AfterTurn(cfg, p, q, l, f, offset, k + 1);
      TransferCompletes(cfg, p, q, l, f, 0);
      assert After(cfg, p, q, l, f, offset, k + 1) == (Installed(cfg, p, q, l, f), None);
    }
  }

  // ----- after the installation -------------------------------------------------

  /** The follower has the leader's snapshot or a later one. */
  ghost predicate Holding(l: Node, f: Node) {
    && 0 < l.snap <= |l.log| && TermOf(l.log, l.snap) != 0 && f.term == l.term && l.snap <= f.snap <= |f.log|
    && (f.snap == l.snap ==> TermOf(f.log, f.snap) == TermOf(l.log, l.snap) && f.snapData == l.snapData)
  }

  /** In every clean reachable state, snapshots of a leader and a node of its term that end at
      the same index are the same bytes under the same label. */
  lemma PairHolding(c: World, p: Id, q: Id)
    requires Inv(c) && c.h.clean && p in c.nodes && q in c.nodes && c.nodes[p].role == Leader
    requires c.nodes[q].term == c.nodes[p].term && 0 < c.nodes[p].snap <= c.nodes[q].snap
    ensures Holding(c.nodes[p], c.nodes[q])
  {
    hide HistInv, MsgInv, VoteOk, AckOk, Safe, ReadOk, BufferOk, LeaderOk, OnLine, Ordered, Accepted, Fold;
    var l, f := c.nodes[p], c.nodes[q];
    assert NodeInv(c.cfg, c.h, p, l) && NodeInv(c.cfg, c.h, q, f);
    Safety.LeaderWon(c, p);
    Completeness.SafeOnLaterLine(c.cfg, c.h, f.log, f.high, f.term, f.term);
    assert f.log[..f.snap] == l.log[..f.high][..f.snap] == l.log[..f.snap];
  }

  /** If the answer to the last chunk was lost, the next request, whatever its offset, changes
      nothing and closes the transfer; a node with a later snapshot refuses it. */
  lemma RepeatCloses(cfg: Config, p: Id, q: Id, l: Node, f: Node, offset: nat)
    requires Holding(l, f)
    ensures Turn(cfg, p, q, l, f, offset) == (f, if f.snap == l.snap then None else Some(0))
  {}
}
