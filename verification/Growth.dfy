/** History only grows, and a step adds only what its own node did. Both facts together
    let every step be checked against the one node that moved. */
module Growth {
  import opened Commands
  import opened Quorums
  import opened Cluster
  import opened Steps
  import opened Invariant

  ghost predicate Sub<K, V>(a: map<K, V>, b: map<K, V>) {
    forall k :: k in a ==> k in b && a[k] == b[k]
  }

  ghost predicate Grows(h: History, h': History) {
    && Sub(h.candidacy, h'.candidacy)
    && Sub(h.ballots, h'.ballots)
    && Sub(h.won, h'.won)
    && Sub(h.commits, h'.commits)
    && Sub(h.captures, h'.captures)
    && (forall t :: t in h.lines ==> t in h'.lines && h.lines[t] <= h'.lines[t])
    && (forall k :: k in h.acks ==> k in h'.acks && h.acks[k] <= h'.acks[k])
    && (h'.clean ==> h.clean)
  }

  /** What is new in the history belongs to node `p`. */
  ghost predicate Ours(h: History, h': History, p: Id) {
    && (forall k :: k in h'.candidacy && k.1 != p ==> k in h.candidacy)
    && (forall k :: k in h'.ballots && k.1 != p ==> k in h.ballots)
    && (forall k :: k in h'.acks && k.1 != p ==> k in h.acks && h'.acks[k] == h.acks[k])
    && (forall t :: t in h'.won && h'.won[t].leader != p ==> t in h.won)
    && (forall t :: t in h.won && t in h.lines && t in h'.lines && h.won[t].leader != p ==> h'.lines[t] == h.lines[t])
    && (forall t, i :: (t, i) in h'.commits && t in h'.won && h'.won[t].leader != p ==> (t, i) in h.commits)
    && (forall t, i :: (t, i) in h'.captures && t in h'.won && h'.won[t].leader != p ==> (t, i) in h.captures)
  }

  // ----- facts that survive growth ----------------------------------------------

  lemma CleanBefore(h: History, h': History)
    requires Grows(h, h')
    ensures h'.clean ==> h.clean
  {}

  lemma OnLineGrows(h: History, h': History, log: seq<Entry>)
    requires Grows(h, h') && OnLine(h, log)
    ensures OnLine(h', log)
  {}

  lemma HoldsGrows(h: History, h': History, log: seq<Entry>, t: nat, j: nat)
    requires Grows(h, h') && t in h.lines && j <= |h.lines[t]|
    ensures j <= |h'.lines[t]| && h'.lines[t][..j] == h.lines[t][..j]
    ensures Holds(h, log, t, j) <==> Holds(h', log, t, j)
  {
    assert h.lines[t] <= h'.lines[t];
  }

  lemma LostGrows(h: History, h': History, t: nat, j: nat, upto: nat, upto': nat)
    requires Grows(h, h') && t in h.lines && j <= |h.lines[t]| && Lost(h, t, j, upto) && upto <= upto'
    ensures Lost(h', t, j, upto')
  {
    var s :| s in h.won && t < s <= upto && !Holds(h, h.won[s].log, t, j);
    HoldsGrows(h, h', h.won[s].log, t, j);
    assert s in h'.won && !Holds(h', h'.won[s].log, t, j);
  }

  lemma SafeGrows(h: History, h': History, log: seq<Entry>, log': seq<Entry>, c: nat, t: nat, t': nat)
    requires Grows(h, h') && Safe(h, log, c, t) && t <= t' && c <= |log| && log[..c] <= log'
    ensures Safe(h', log', c, t')
  {
    if c > 0 {
      var s: nat, i: nat :| SafeBy(h, log, c, t, s, i);
      assert h.lines[s] <= h'.lines[s];
      assert log[..c] == log'[..c];
      assert h.lines[s][..c] == h'.lines[s][..c];
      assert SafeBy(h', log', c, t', s, i);
    }
  }

  lemma SafeShorter(h: History, log: seq<Entry>, c: nat, d: nat, t: nat)
    requires Safe(h, log, c, t) && d <= c
    ensures Safe(h, log, d, t)
  {
    if d > 0 {
      var s: nat, i: nat :| SafeBy(h, log, c, t, s, i);
      assert log[..d] == log[..c][..d];
      assert h.lines[s][..d] == h.lines[s][..c][..d];
      assert SafeBy(h, log, d, t, s, i);
    }
  }

  lemma SafeWithin(h: History, log: seq<Entry>, c: nat, t: nat)
    requires Safe(h, log, c, t)
    ensures c <= |log|
  {}

  // ----- nodes other than the one that moved ------------------------------------

  lemma VoteFrame(cfg: Config, h: History, h': History, p: Id, q: Id, n: Node)
    requires Grows(h, h') && Ours(h, h', p) && q != p && VoteOk(cfg, h, q, n)
    ensures VoteOk(cfg, h', q, n)
  {
    assert forall t :: (t, q) in h'.ballots ==> (t, q).1 != p && (t, q) in h.ballots;
    assert forall t :: (t, q) in h'.candidacy ==> (t, q).1 != p && (t, q) in h.candidacy;
  }

  lemma AckFrame(h: History, h': History, p: Id, q: Id, n: Node)
    requires Grows(h, h') && Ours(h, h', p) && q != p && AcksFit(h) && AckOk(h, q, n)
    ensures AckOk(h', q, n)
  {
    forall t: nat, j: nat | (t, q) in h'.acks && j <= h'.acks[(t, q)]
      ensures Kept(h', n.log, n.term, t, j)
    {
      var k := (t, q);
      assert k.1 != p && k in h.acks && h'.acks[k] == h.acks[k];
      assert Kept(h, n.log, n.term, t, j);
      HoldsGrows(h, h', n.log, t, j);
      if !Holds(h, n.log, t, j) { LostGrows(h, h', t, j, n.term, n.term); }
    }
  }

  lemma LeaderFrame(cfg: Config, h: History, h': History, p: Id, q: Id, n: Node)
    requires Grows(h, h') && Ours(h, h', p) && q != p && LeaderOk(cfg, h, q, n)
    ensures LeaderOk(cfg, h', q, n)
  {
    if n.role == Leader {
      assert (n.term, q).1 != p;
      assert h'.lines[n.term] == h.lines[n.term];
      forall r | r in n.matched ensures MatchOk(h', n, r) {
        assert MatchOk(h, n, r);
      }
    }
  }

  lemma ReadFrame(cfg: Config, h: History, h': History, q: Id, n: Node)
    requires Grows(h, h') && ReadOk(cfg, h, q, n)
    ensures ReadOk(cfg, h', q, n)
  {}

  lemma BufferFrame(cfg: Config, h: History, h': History, n: Node)
    requires Grows(h, h') && BufferOk(cfg, h, n)
    ensures BufferOk(cfg, h', n)
  {
    var b := n.incoming;
    if b.active { HoldsGrows(h, h', [], b.term, b.index); }
  }

  lemma NodeFrame(cfg: Config, h: History, h': History, p: Id, q: Id, n: Node)
    requires Grows(h, h') && Ours(h, h', p) && q != p && AcksFit(h) && NodeInv(cfg, h, q, n)
    ensures NodeInv(cfg, h', q, n)
  {
    OnLineGrows(h, h', n.log);
    VoteFrame(cfg, h, h', p, q, n);
    AckFrame(h, h', p, q, n);
    SafeGrows(h, h', n.log, n.log, n.high, n.term, n.term);
    LeaderFrame(cfg, h, h', p, q, n);
    ReadFrame(cfg, h, h', q, n);
    BufferFrame(cfg, h, h', n);
  }

  // ----- messages already sent --------------------------------------------------

  lemma AppendFrame(cfg: Config, h: History, h': History, m: Msg)
    requires Grows(h, h') && MsgInv(cfg, h, m) && m.AppendReq?
    ensures MsgInv(cfg, h', m)
  {
    hide Safe;
    assert h.lines[m.term] <= h'.lines[m.term];
    SafeWithin(h, h.lines[m.term], m.commit, m.term);
    SafeGrows(h, h', h.lines[m.term], h'.lines[m.term], m.commit, m.term, m.term);
  }

  lemma ChunkFrame(cfg: Config, h: History, h': History, m: Msg)
    requires Grows(h, h') && MsgInv(cfg, h, m) && m.SnapReq?
    ensures MsgInv(cfg, h', m)
  {
    hide Safe, ChunkOf, Accepted, Fold;
    HoldsGrows(h, h', [], m.term, m.index);
    SafeGrows(h, h', h.lines[m.term], h'.lines[m.term], m.index, m.term, m.term);
  }

  lemma MsgFrame(cfg: Config, h: History, h': History, m: Msg)
    requires Grows(h, h') && MsgInv(cfg, h, m)
    ensures MsgInv(cfg, h', m)
  {
    match m
    case AppendReq(_, _, _, _, _, _, _) => AppendFrame(cfg, h, h', m);
    case SnapReq(_, _, _, _, _, _, _, _, _) => ChunkFrame(cfg, h, h', m);
    case _ =>
  }

  lemma NodesFrame(cfg: Config, ns: map<Id, Node>, ns': map<Id, Node>, p: Id, h: History, h': History)
    requires Grows(h, h') && Ours(h, h', p) && AcksFit(h)
    requires forall q :: q in ns ==> NodeInv(cfg, h, q, ns[q])
    requires forall q :: q in ns' && q != p ==> q in ns && ns'[q] == ns[q]
    requires p in ns' ==> NodeInv(cfg, h', p, ns'[p])
    ensures forall q :: q in ns' ==> NodeInv(cfg, h', q, ns'[q])
  {
    hide NodeInv, Grows, Ours;
    forall q | q in ns' ensures NodeInv(cfg, h', q, ns'[q]) {
      if q != p { NodeFrame(cfg, h, h', p, q, ns[q]); }
    }
  }

  lemma NetFrame(cfg: Config, net: set<Msg>, sent: set<Msg>, h: History, h': History)
    requires Grows(h, h')
    requires forall m :: m in net ==> MsgInv(cfg, h, m)
    requires forall m :: m in sent ==> MsgInv(cfg, h', m)
    ensures forall m :: m in net + sent ==> MsgInv(cfg, h', m)
  {
    hide MsgInv, Grows;
    forall m | m in net + sent ensures MsgInv(cfg, h', m) {
      if m in net { MsgFrame(cfg, h, h', m); }
    }
  }

  /** A step preserves the invariant once the history, the moved node and the messages it
      sent are in order. */
  lemma Frame(c: World, p: Id, n: Node, sent: set<Msg>, h: History)
    requires Inv(c) && p in c.nodes
    requires Grows(c.h, h) && Ours(c.h, h, p) && HistInv(c.cfg, h)
    requires NodeInv(c.cfg, h, p, n)
    requires forall m :: m in sent ==> MsgInv(c.cfg, h, m)
    requires c.nodes[p].term <= n.term
    requires h.captures == c.h.captures || TermsPassed(c.nodes, h.captures)
    ensures Inv(Moved(c, p, n, sent, h))
  {
    hide NodeInv, MsgInv, Grows, Ours, Lines, Candidacies, Ballots, Elections, VotersKept, Commits, Captures;
    NodesFrame(c.cfg, c.nodes, c.nodes[p := n], p, c.h, h);
    NetFrame(c.cfg, c.net, sent, c.h, h);
  }

  lemma Still(h: History, p: Id)
    ensures Grows(h, h) && Ours(h, h, p)
  {}

  /** The same for a step that leaves no trace in the history. */
  lemma FrameStill(c: World, p: Id, n: Node, sent: set<Msg>)
    requires Inv(c) && p in c.nodes && NodeInv(c.cfg, c.h, p, n) && c.nodes[p].term <= n.term
    requires forall m :: m in sent ==> MsgInv(c.cfg, c.h, m)
    ensures Inv(Moved(c, p, n, sent, c.h))
  {
    hide NodeInv, MsgInv, Grows, Ours, HistInv;
    Still(c.h, p);
    Frame(c, p, n, sent, c.h);
  }

  // ----- the node that moved ----------------------------------------------------

  /** The step left the log, the store and every index alone. */
  ghost predicate SameData(n: Node, n': Node) {
    && n'.log == n.log && n'.snap == n.snap && n'.snapData == n.snapData
    && n'.state == n.state && n'.stateIndex == n.stateIndex
    && n'.dcommit == n.dcommit && n'.commit == n.commit && n'.applied == n.applied && n'.high == n.high
    && n'.incoming == n.incoming && n'.phase == n.phase
  }

  /** A log that only grew, in a term that only grew, keeps what it acknowledged. */
  lemma AcksKept(h: History, h': History, p: Id, n: Node, n': Node)
    requires Grows(h, h') && AcksFit(h) && AckOk(h, p, n)
    requires n.log <= n'.log && n.term <= n'.term
    requires forall t: nat, j: nat ::
               (t, p) in h'.acks && j <= h'.acks[(t, p)] && !((t, p) in h.acks && j <= h.acks[(t, p)]) ==>
               Kept(h', n'.log, n'.term, t, j)
    ensures AckOk(h', p, n')
  {
    forall t: nat, j: nat | (t, p) in h'.acks && j <= h'.acks[(t, p)]
      ensures Kept(h', n'.log, n'.term, t, j)
    {
      if (t, p) in h.acks && j <= h.acks[(t, p)] {
        assert Kept(h, n.log, n.term, t, j) && (t, p).0 in h.lines;
        HoldsGrows(h, h', n.log, t, j);
        if !Holds(h, n.log, t, j) { LostGrows(h, h', t, j, n.term, n'.term); }
      }
    }
  }

  lemma AcksSame(h: History, h': History, p: Id, n: Node, n': Node)
    requires Grows(h, h') && AcksFit(h) && AckOk(h, p, n) && h'.acks == h.acks
    requires n.log <= n'.log && n.term <= n'.term
    ensures AckOk(h', p, n')
  {
    AcksKept(h, h', p, n, n');
  }

  /** A step that left the data alone owes only votes, acknowledgements, leadership and reads. */
  lemma DataKept(cfg: Config, h: History, h': History, p: Id, n: Node, n': Node)
    requires NodeInv(cfg, h, p, n) && Grows(h, h')
    requires SameData(n, n') && n.term <= n'.term
    requires VoteOk(cfg, h', p, n') && LeaderOk(cfg, h', p, n') && ReadOk(cfg, h', p, n') && AckOk(h', p, n')
    ensures NodeInv(cfg, h', p, n')
  {
    hide VoteOk, LeaderOk, ReadOk, AckOk, Grows, Safe, OnLine;
    OnLineGrows(h, h', n.log);
    SafeGrows(h, h', n.log, n.log, n.high, n.term, n'.term);
    BufferFrame(cfg, h, h', n);
    CleanBefore(h, h');
  }
}
