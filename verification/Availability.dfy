/** From election to commit: a majority can have a new command committed, as a run. */
module Availability {
  import opened Commands
  import opened Quorums
  import opened Cluster
  import opened Steps
  import opened Invariant
  import opened Handlers
  import opened Draining
  import opened Repair
  import opened Progress
  import Safety

  lemma {:induction false} PathKeeps(cs: seq<World>, k: nat)
    requires Path(cs) && Inv(cs[0]) && k < |cs|
    ensures Inv(cs[k])
  {
    hide Inv, Enabled, Do;
    if k > 0 {
      PathKeeps(cs, k - 1);
      assert Next(cs[k - 1], cs[k - 1 + 1]);
      var s :| Enabled(cs[k - 1], s) && cs[k] == Do(cs[k - 1], s);
      Safety.StepKeeps(cs[k - 1], s);
    }
  }

  lemma ReachesKeeps(c: World, c': World)
    requires Inv(c) && Reaches(c, c')
    ensures Inv(c')
  {
    hide Inv;
    var cs :| Path(cs) && cs[0] == c && cs[|cs| - 1] == c';
    PathKeeps(cs, |cs| - 1);
  }

  lemma InvariantAtEnd(cs: seq<World>)
    requires Run(cs)
    ensures Inv(cs[|cs| - 1])
  {
    Safety.InvariantHolds(cs, |cs| - 1);
  }

  // ----- one exchange -----------------------------------------------------------

  /** `c'` follows `c` and differs from it at two nodes at most. */
  ghost predicate Between(c: World, c': World, p: Id, q: Id) {
    && Reaches(c, c') && c'.cfg == c.cfg && c'.nodes.Keys == c.nodes.Keys
    && forall x :: x in c.nodes && x != p && x != q ==> c'.nodes[x] == c.nodes[x]
  }

  lemma BetweenTrans(a: World, b: World, c: World, p: Id, q: Id)
    requires Between(a, b, p, q) && Between(b, c, p, q)
    ensures Between(a, c, p, q)
  {
    hide Reaches;
    ReachesTrans(a, b, c);
  }

  /** Two nodes between handlers, the first leading. */
  ghost predicate Pair(c: World, p: Id, q: Id) {
    && p != q && p in c.cfg.peers && p in c.nodes && q in c.cfg.peers && q in c.nodes
    && c.nodes[p].phase == Idle && c.nodes[p].role == Leader && c.nodes[q].phase == Idle
  }

  /** A turn of log repair is a run of the protocol. */
  lemma TurnIsRun(c: World, p: Id, q: Id, next: nat) returns (c': World)
    requires Pair(c, p, q) && c.nodes[p].snap < next <= |c.nodes[p].log| + 1
    ensures var l, f := c.nodes[p], c.nodes[q];
            && Between(c, c', p, q)
            && c'.nodes[q] == Turn(c.cfg.codec, p, q, l, f, next).0
            && c'.nodes[p] == OnAppendReply(c.cfg.codec, p, c.cfg.peers, l, AppendAnswer(q, f, AppendMsg(p, l, q, next)))
  {
    hide Reaches, OnAppend, OnAppendReply, TermAt, Merged;
    var l := c.nodes[p];
    Stay(c, p);
    var c1 := Walk(c, p, l, c, SendAppend(p, q, next), l);
    assert c1.nodes == c.nodes;
    var c2 := AppendIsRun(c1, q, AppendMsg(p, l, q, next));
    c' := AppendReplyIsRun(c2, p, AppendAnswer(q, c.nodes[q], AppendMsg(p, l, q, next)));
    ReachesTrans(c, c1, c2);
    ReachesTrans(c, c2, c');
  }

  // ----- the leader -------------------------------------------------------------

  /** A leader whose last entry is the only one of its term, and not committed. */
  predicate Pending(l: Node) {
    && l.role == Leader && l.phase == Idle && l.term > 0 && l.snap < |l.log| && l.commit < |l.log|
    && forall i :: 0 <= i < |l.log| ==> (l.log[i].term == l.term <==> i == |l.log| - 1)
  }

  /** `l'` is `l` after it committed its whole log. */
  ghost predicate CommittedAs(codec: Codec, l: Node, l': Node) {
    exists matched: map<Id, nat> :: l' == Settle(codec, CommitTo(l.(matched := matched), |l.log|))
  }

  lemma AdvancePending(codec: Codec, p: Id, peers: set<Id>, l: Node)
    requires Pending(l)
    ensures if Backed(p, peers, l.matched, |l.log|) then CommittedAs(codec, l, Advanced(codec, p, peers, l))
            else Advanced(codec, p, peers, l) == l
  {
    hide Settle, Counts, Backed;
    CountsIff(p, peers, l, |l.log|);
    match Largest(p, peers, l, |l.log|)
    case Some(index) =>
      CountsIff(p, peers, l, index);
      assert l.(matched := l.matched) == l;
    case None =>
  }

  /** What became of the exchange with `q`. */
  ghost predicate Taken(codec: Codec, p: Id, peers: set<Id>, l: Node, l': Node, q: Id) {
    CommittedAs(codec, l, l') ||
    (l' == l.(matched := l.matched[q := |l.log|]) && !Backed(p, peers, l'.matched, |l.log|))
  }

  lemma SuccessTaken(codec: Codec, p: Id, peers: set<Id>, l: Node, m: Msg)
    requires Pending(l) && m.AppendResp? && m.ok && m.term == l.term && m.match_ <= |l.log|
    ensures var l' := OnAppendReply(codec, p, peers, l, m);
            CommittedAs(codec, l, l') ||
            (l' == l.(matched := l.matched[m.src := m.match_]) && !Backed(p, peers, l'.matched, |l.log|))
  {
    hide Settle, Advanced, Backed;
    var l1 := l.(matched := l.matched[m.src := m.match_]);
    AdvancePending(codec, p, peers, l1);
    SameCommitted(codec, l, l1, OnAppendReply(codec, p, peers, l, m));
  }

  lemma SameCommitted(codec: Codec, l: Node, l1: Node, l': Node)
    requires l1 == l.(matched := l1.matched)
    ensures CommittedAs(codec, l1, l') ==> CommittedAs(codec, l, l')
  {
    hide Settle;
    if matched: map<Id, nat> :| l' == Settle(codec, CommitTo(l1.(matched := matched), |l1.log|)) {
      assert l1.(matched := matched) == l.(matched := matched);
    }
  }

  lemma SameSound(l: Node, l1: Node, f: Node)
    requires Sound(l, f) && l1 == l.(matched := l1.matched)
    ensures Sound(l1, f) && forall a: nat :: Meets(l, f, a) <==> Meets(l1, f, a)
  {
    hide Fold, Accepted, LogsAgree;
  }

  // ----- repair as a run --------------------------------------------------------

  lemma {:induction false} CatchUpIsRun(c: World, p: Id, q: Id, next: nat) returns (c': World)
    requires Pair(c, p, q) && Pending(c.nodes[p]) && Sound(c.nodes[p], c.nodes[q])
    requires c.nodes[p].snap < next <= |c.nodes[p].log| + 1 && Meets(c.nodes[p], c.nodes[q], next - 1)
    ensures Between(c, c', p, q) && Taken(c.cfg.codec, p, c.cfg.peers, c.nodes[p], c'.nodes[p], q)
    decreases |c.nodes[p].log| + 1 - next
  {
    hide Reaches, Sound, Meets, Turn, OnAppendReply, AppendAnswer, Backed, CommittedAs;
    var l, f := c.nodes[p], c.nodes[q];
    var k := Reach(l, next);
    var answer := AppendAnswer(q, f, AppendMsg(p, l, q, next));
    c' := TurnIsRun(c, p, q, next);
    SoundFacts(l, f);
    TurnAccepted(c.cfg.codec, p, q, l, f, next);
    TurnEnds(c.cfg.codec, p, q, l, f, next);
    AcceptedAnswer(p, q, l, f, next);
    SuccessTaken(c.cfg.codec, p, c.cfg.peers, l, answer);
    var l1 := c'.nodes[p];
    if k < |l.log| && !CommittedAs(c.cfg.codec, l, l1) {
      var c1 := c';
      SameSound(l, l1, c1.nodes[q]);
      SoundIdle(l, c1.nodes[q]);
      c' := CatchUpIsRun(c1, p, q, k + 1);
      BetweenTrans(c, c1, c', p, q);
      SameCommitted(c.cfg.codec, l, l1, c'.nodes[p]);
      assert l.matched[q := k][q := |l.log|] == l.matched[q := |l.log|];
    }
  }

  lemma AcceptedAnswer(p: Id, q: Id, l: Node, f: Node, next: nat)
    requires Compatible(l, f) && l.snap < next <= |l.log| + 1
    ensures var answer := AppendAnswer(q, f, AppendMsg(p, l, q, next));
            && answer.AppendResp? && answer.src == q && answer.term == l.term
            && (answer.ok <==> Meets(l, f, next - 1))
            && (answer.ok ==> answer.match_ == Reach(l, next))
  {
    hide Merged, Meets, LogsAgree;
    TurnMerges(p, q, l, f, next);
  }

  lemma SoundIdle(l: Node, f: Node)
    requires Sound(l, f)
    ensures f.phase == Idle
  {}

  /** Rejections first, down to the largest index at which the logs meet. */
  lemma {:induction false} RepairIsRun(c: World, p: Id, q: Id, next: nat, a: nat) returns (c': World)
    requires Pair(c, p, q) && Pending(c.nodes[p]) && Sound(c.nodes[p], c.nodes[q])
    requires c.nodes[p].snap < next <= |c.nodes[p].log| + 1 && a < next && Meets(c.nodes[p], c.nodes[q], a)
    requires forall b: nat :: a < b < next ==> !Meets(c.nodes[p], c.nodes[q], b)
    ensures Between(c, c', p, q) && Taken(c.cfg.codec, p, c.cfg.peers, c.nodes[p], c'.nodes[p], q)
    decreases next
  {
    hide Reaches, Sound, Turn, AppendAnswer, Backed, CommittedAs, Advanced;
    if a == next - 1 {
      c' := CatchUpIsRun(c, p, q, next);
    } else {
      var l, f := c.nodes[p], c.nodes[q];
      var c1 := TurnIsRun(c, p, q, next);
      SoundFacts(l, f);
      TurnRejected(c.cfg.codec, p, q, l, f, next);
      AcceptedAnswer(p, q, l, f, next);
      assert c1.nodes[p] == l && c1.nodes[q] == f;
      c' := RepairIsRun(c1, p, q, next - 1, a);
      BetweenTrans(c, c1, c', p, q);
    }
  }

  // ----- one follower -----------------------------------------------------------

  /** `b` has every entry that `a` has compacted. */
  predicate Covers(a: Node, b: Node) { a.snap <= |a.log| && a.log[..a.snap] <= b.log }

  /** A node that the leader `l` can bring up to date. */
  ghost predicate Fit(cfg: Config, l: Node, f: Node) {
    && f.phase == Idle && f.term <= l.term && Covers(l, f)
    && f.applied <= f.stateIndex <= |f.log| && f.snap <= |f.log| && StateOk(cfg, f)
  }

  /** Any message of the leader makes `q` a follower in its term. */
  lemma Join(c: World, p: Id, q: Id) returns (c': World)
    requires Pair(c, p, q) && c.nodes[q].term <= c.nodes[p].term && c.nodes[p].snap <= |c.nodes[p].log|
    ensures Between(c, c', p, q) && c'.nodes[p] == c.nodes[p] && c'.nodes[q] == Yield(c.nodes[q], c.nodes[p].term)
  {
    hide Reaches, TermAt;
    var l := c.nodes[p];
    Stay(c, p);
    var c1 := Walk(c, p, l, c, SendAppend(p, q, |l.log| + 1), l);
    assert c1.nodes == c.nodes;
    c' := ObserveWalk(c1, q, AppendMsg(p, l, q, |l.log| + 1));
    ReachesTrans(c, c1, c');
  }

  lemma FitSound(c: World, p: Id, q: Id, f: Node)
    requires Inv(c) && Pair(c, p, q) && Pending(c.nodes[p]) && Accepted(c.nodes[p].log[..c.nodes[p].commit])
    requires Fit(c.cfg, c.nodes[p], f) && c.nodes[q] == Yield(f, c.nodes[p].term)
    ensures Sound(c.nodes[p], c.nodes[q]) && Covers(c.nodes[p], c.nodes[q])
  {
    hide HistInv, MsgInv, VoteOk, AckOk, Safe, ReadOk, BufferOk, LeaderOk, OnLine, Ordered, Fold, Accepted, Compatible;
    PairCompatible(c, p, q);
    assert NodeInv(c.cfg, c.h, p, c.nodes[p]) && NodeInv(c.cfg, c.h, q, c.nodes[q]);
  }

  lemma OneFollower(c: World, p: Id, q: Id) returns (c': World)
    requires Inv(c) && Pair(c, p, q) && Pending(c.nodes[p]) && Accepted(c.nodes[p].log[..c.nodes[p].commit])
    requires Fit(c.cfg, c.nodes[p], c.nodes[q])
    ensures Between(c, c', p, q) && Taken(c.cfg.codec, p, c.cfg.peers, c.nodes[p], c'.nodes[p], q)
  {
    hide Inv, Reaches, Sound, Meets, Taken, StateOk, Accepted;
    var l := c.nodes[p];
    var c1 := Join(c, p, q);
    ReachesKeeps(c, c1);
    FitSound(c1, p, q, c.nodes[q]);
    SoundFacts(l, c1.nodes[q]);
    MeetIff(l, c1.nodes[q]);
    MeetsBelow(l, c1.nodes[q]);
    var a := LargestMeet(l, c1.nodes[q], |l.log| + 1);
    c' := RepairIsRun(c1, p, q, |l.log| + 1, a);
    BetweenTrans(c, c1, c', p, q);
  }

  // ----- a majority -------------------------------------------------------------

  /** The peers that have the whole log, or can be brought to it. */
  function Reachable(p: Id, l: Node, rest: set<Id>): set<Id> {
    {p} + rest + set q | q in l.matched && l.matched[q] >= |l.log|
  }

  lemma {:induction false} Replicate(c: World, p: Id, rest: set<Id>) returns (c': World)
    requires Inv(c) && p in c.nodes && p !in rest && rest <= c.nodes.Keys
    requires Pending(c.nodes[p]) && Accepted(c.nodes[p].log[..c.nodes[p].commit])
    requires forall q :: q in rest ==> Fit(c.cfg, c.nodes[p], c.nodes[q])
    requires !Backed(p, c.cfg.peers, c.nodes[p].matched, |c.nodes[p].log|)
    requires 2 * |Reachable(p, c.nodes[p], rest)| > |c.cfg.peers|
    ensures Reaches(c, c') && c'.nodes.Keys == c.nodes.Keys && CommittedAs(c.cfg.codec, c.nodes[p], c'.nodes[p])
    ensures forall x :: x in c.nodes && x != p && x !in rest ==> c'.nodes[x] == c.nodes[x]
    decreases rest
  {
    hide Inv, Reaches, CommittedAs, StateOk, Accepted;
    var l := c.nodes[p];
    assert Reachable(p, l, {}) == {p} + set q | q in l.matched && l.matched[q] >= |l.log|;
    assert c.nodes.Keys == c.cfg.peers by { Peers(c); }
    var q := Pick(rest);
    c' := OneFollower(c, p, q);
    if !CommittedAs(c.cfg.codec, l, c'.nodes[p]) {
      var c1 := c';
      ReachesKeeps(c, c1);
      SizeBound(Reachable(p, l, rest), Reachable(p, c1.nodes[p], rest - {q}));
      c' := Replicate(c1, p, rest - {q});
      ReachesTrans(c, c1, c');
      SameCommitted(c.cfg.codec, l, c1.nodes[p], c'.nodes[p]);
    }
  }

  lemma Peers(c: World)
    requires Inv(c)
    ensures c.nodes.Keys == c.cfg.peers
  {}

  /** A newly elected leader that has just taken a command. */
  lemma ExtendPending(c: World, p: Id, l: Node, command: Command)
    requires Inv(c) && p in c.nodes && c.nodes[p].phase == Idle && c.nodes[p].role != Leader
    requires Elected(c.nodes[p], l, c.cfg.peers, p) && l.term > c.nodes[p].term
    ensures Pending(Extend(l, command)) && l.snap <= l.applied <= l.stateIndex <= |l.log| && l.commit <= l.stateIndex
  {
    hide HistInv, MsgInv, VoteOk, AckOk, Safe, ReadOk, BufferOk, LeaderOk, OnLine, Ordered, StateOk;
    assert NodeInv(c.cfg, c.h, p, c.nodes[p]);
  }

  lemma StoreOf(c: World, q: Id)
    requires Inv(c) && c.h.clean && q in c.nodes
    ensures var n := c.nodes[q];
            n.applied <= n.stateIndex <= |n.log| && n.snap <= |n.log| && StateOk(c.cfg, n) && Accepted(n.log[..n.stateIndex])
  {
    hide HistInv, MsgInv, VoteOk, AckOk, Safe, ReadOk, BufferOk, LeaderOk, LogOk, Fold, Accepted;
    assert NodeInv(c.cfg, c.h, q, c.nodes[q]);
  }

  /** Once its log is committed the leader has applied it, provided every command can be. */
  lemma CommittedApplies(cfg: Config, l: Node, l': Node)
    requires Pending(l) && CommittedAs(cfg.codec, l, l')
    requires l.snap <= l.applied <= l.stateIndex <= |l.log| && StateOk(cfg, l)
    ensures l'.role == Leader && l'.log == l.log && l'.term == l.term && l'.commit == |l.log|
    ensures Accepted(l.log) ==> l'.phase == Idle && l'.applied == |l.log| && l'.state == Fold(l.log)
  {
    hide Settle, Fold, Accepted;
    var matched: map<Id, nat> :| l' == Settle(cfg.codec, CommitTo(l.(matched := matched), |l.log|));
    var n := CommitTo(l.(matched := matched), |l.log|);
    SettleKeeps(cfg.codec, n);
    assert l.log[..|l.log|] == l.log;
    if Accepted(l.log) { SettleReady(cfg.codec, n); }
  }

  lemma ExtendedStore(cfg: Config, n: Node, l: Node)
    requires n.applied <= n.stateIndex <= |n.log| && n.snap <= |n.log| && StateOk(cfg, n) && n.commit <= n.stateIndex
    requires |l.log| >= |n.log| && l.log[..|n.log|] == n.log && l.snap == n.snap && l.snapData == n.snapData
    requires l.commit == n.commit
    requires l.state == n.state && l.stateIndex == n.stateIndex && l.applied == n.applied
    ensures StateOk(cfg, l) && Accepted(l.log[..l.commit])
  {
    hide Fold, Accepted;
    assert l.log[..n.stateIndex] == n.log[..n.stateIndex] && l.log[..n.snap] == n.log[..n.snap];
    assert forall j :: 0 <= j < |n.log| ==> l.log[j] == l.log[..|n.log|][j];
    AcceptedPrefix(n.log[..n.stateIndex], n.commit);
    assert n.log[..n.stateIndex][..n.commit] == l.log[..n.commit];
  }

  lemma CalmFit(cfg: Config, n: Node, f: Node, n0: Node, l: Node)
    requires n.applied <= n.stateIndex <= |n.log| && n.snap <= |n.log| && StateOk(cfg, n) && n.phase == Idle
    requires Calm(n, f) && f.term <= l.term
    requires Covers(n0, n) && l.snap == n0.snap && |l.log| >= |n0.log| && l.log[..|n0.log|] == n0.log
    ensures Fit(cfg, l, f)
  {
    hide Fold, Accepted;
    assert l.log[..l.snap] == n0.log[..n0.snap];
  }

  /** The first part of a leader's term: it has just been elected by `s` and takes a command. */
  ghost predicate JustElected(c: World, c1: World, s: set<Id>, p: Id) {
    && Reaches(c, c1) && c1.cfg == c.cfg && c1.nodes.Keys == c.nodes.Keys && p in s && s <= c.nodes.Keys
    && c.nodes[p].phase == Idle && c.nodes[p].role != Leader && c.nodes[p].term < c1.nodes[p].term
    && c1.nodes[p].role == Leader && Elected(c.nodes[p], c1.nodes[p], c.cfg.peers, p)
    && forall q :: q in s && q != p ==>
         Calm(c.nodes[q], c1.nodes[q]) && c1.nodes[q].term <= c1.nodes[p].term && c.nodes[q].phase == Idle &&
         Covers(c.nodes[p], c.nodes[q])
  }

  lemma LeaderCanCommit(c: World, c1: World, s: set<Id>, p: Id, command: Command) returns (c': World)
    requires Inv(c) && c.h.clean && Majority(s, c.cfg.peers) && JustElected(c, c1, s, p)
    requires command.HasId() ==> command.Id() !in c.nodes[p].state.dedup
    ensures Reaches(c1, c') && c'.nodes.Keys == c.nodes.Keys
    ensures CommittedAs(c.cfg.codec, Extend(c1.nodes[p], command), c'.nodes[p])
    ensures forall q :: q in c.nodes && q !in s ==> c'.nodes[q] == c1.nodes[q]
  {
    hide Inv, Reaches, StateOk, Advanced, Accepted, Fold, CommittedAs, Backed;
    var l1 := Extend(c1.nodes[p], command);
    assert c.nodes.Keys == c.cfg.peers by { Peers(c); }
    ExtendPending(c, p, c1.nodes[p], command);
    c' := SubmitIsRun(c1, p, command);
    AdvancePending(c.cfg.codec, p, c.cfg.peers, l1);
    if !CommittedAs(c.cfg.codec, l1, c'.nodes[p]) {
      var c2 := c';
      ReachesTrans(c, c1, c2);
      ReachesKeeps(c, c2);
      StoreOf(c, p);
      ExtendedStore(c.cfg, c.nodes[p], l1);
      forall q | q in s - {p} ensures Fit(c.cfg, l1, c2.nodes[q]) {
        StoreOf(c, q);
        CalmFit(c.cfg, c.nodes[q], c2.nodes[q], c.nodes[p], l1);
      }
      SizeBound(s, Reachable(p, l1, s - {p}));
      c' := Replicate(c2, p, s - {p});
      ReachesTrans(c1, c2, c');
    }
  }

  /** Whatever a clean run has left behind, a majority of idle nodes of which none leads and
      none lacks an entry another has compacted can elect one of its own and have it commit a
      new command, with no help from the other nodes; and apply it, if the log can be. */
  lemma MajorityCanCommit(cs: seq<World>, c: World, s: set<Id>, command: Command) returns (p: Id, c': World)
    requires Run(cs) && c == cs[|cs| - 1] && c.h.clean && Majority(s, c.cfg.peers) && s <= c.nodes.Keys
    requires forall q :: q in s ==> c.nodes[q].phase == Idle && c.nodes[q].role != Leader
    requires forall q, r :: q in s && r in s ==> Covers(c.nodes[q], c.nodes[r])
    requires command.HasId() ==> forall q :: q in s ==> command.Id() !in c.nodes[q].state.dedup
    ensures Reaches(c, c') && p in s && c'.nodes.Keys == c.nodes.Keys
    ensures forall q :: q in c.nodes && q !in s ==> c'.nodes[q] == c.nodes[q]
    ensures var l := c'.nodes[p];
            && l.role == Leader && l.log == c.nodes[p].log + [Entry(l.term, command)] && l.commit == |l.log|
            && (Accepted(l.log) ==> l.phase == Idle && l.applied == |l.log| && l.state == Fold(l.log))
  {
    hide Inv, Run, Reaches, StateOk, Accepted, Fold, CommittedAs;
    InvariantAtEnd(cs);
    var c1;
    p, c1 := MajorityCanElect(c, s);
    var l1 := Extend(c1.nodes[p], command);
    c' := LeaderCanCommit(c, c1, s, p, command);
    ReachesTrans(c, c1, c');
    ExtendPending(c, p, c1.nodes[p], command);
    StoreOf(c, p);
    ExtendedStore(c.cfg, c.nodes[p], l1);
    CommittedApplies(c.cfg, l1, c'.nodes[p]);
  }
}
