/** Runs of three nodes, put together from whole handlers. */
module Scenes {
  import opened Commands
  import opened Quorums
  import opened Cluster
  import opened Steps
  import opened Handlers
  import StaleRead

  /** A run from `c0` stands at these three nodes. */
  ghost predicate Scene(c0: World, c: World, a: Node, b: Node, d: Node) {
    Reaches(c0, c) && c.cfg == c0.cfg && c.cfg.peers == {1, 2, 3} && c.nodes.Keys == {1, 2, 3} &&
    c.nodes[1] == a && c.nodes[2] == b && c.nodes[3] == d
  }

  /** The same scene with one node replaced. */
  ghost predicate Turned(c0: World, c: World, a: Node, b: Node, d: Node, p: Id, n: Node) {
    (p == 1 ==> Scene(c0, c, n, b, d)) && (p == 2 ==> Scene(c0, c, a, n, d)) && (p == 3 ==> Scene(c0, c, a, b, n))
  }

  function At(a: Node, b: Node, d: Node, p: Id): Node { if p == 1 then a else if p == 2 then b else d }

  lemma Act(c0: World, c: World, a: Node, b: Node, d: Node, p: Id, n: Node, c': World)
    requires Scene(c0, c, a, b, d) && Walks(c, p, n, c')
    ensures Turned(c0, c', a, b, d, p, n) && c.net <= c'.net
  {
    hide Reaches;
    ReachesTrans(c0, c, c');
  }

  lemma OnStage(c0: World, c: World, a: Node, b: Node, d: Node, p: Id)
    requires Scene(c0, c, a, b, d) && p in {1, 2, 3}
    ensures p in c.cfg.peers && p in c.nodes && c.nodes[p] == At(a, b, d, p) && c.cfg == c0.cfg && c0.cfg.peers == {1, 2, 3}
  {}

  lemma Parts(a: Node, b: Node, d: Node)
    ensures At(a, b, d, 1) == a && At(a, b, d, 2) == b && At(a, b, d, 3) == d
  {}

  lemma Received(c: World, p: Id, m: Msg)
    requires m in c.net && m.dst == p
    ensures Receives(c, p, m)
  {}

  lemma First(c0: World, c: World, a: Node, b: Node, d: Node, n: Node)
    requires Turned(c0, c, a, b, d, 1, n)
    ensures Scene(c0, c, n, b, d)
  {
    hide Scene;
  }

  lemma Second(c0: World, c: World, a: Node, b: Node, d: Node, n: Node)
    requires Turned(c0, c, a, b, d, 2, n)
    ensures Scene(c0, c, a, n, d)
  {
    hide Scene;
  }

  lemma Third(c0: World, c: World, a: Node, b: Node, d: Node, n: Node)
    requires Turned(c0, c, a, b, d, 3, n)
    ensures Scene(c0, c, a, b, n)
  {
    hide Scene;
  }

  // ----- what a node may do on stage --------------------------------------------

  lemma Submits(c0: World, c: World, a: Node, b: Node, d: Node, p: Id, command: Command) returns (c': World)
    requires Scene(c0, c, a, b, d) && p in {1, 2, 3} && At(a, b, d, p).phase == Idle
    ensures Turned(c0, c', a, b, d, p, OnSubmit(c0.cfg.codec, p, {1, 2, 3}, At(a, b, d, p), command)) && c.net <= c'.net
  {
    hide Scene, OnSubmit, Walks, Turned;
    OnStage(c0, c, a, b, d, p);
    c' := SubmitIsRun(c, p, command);
    Act(c0, c, a, b, d, p, OnSubmit(c0.cfg.codec, p, {1, 2, 3}, At(a, b, d, p), command), c');
  }

  lemma Appends(c0: World, c: World, a: Node, b: Node, d: Node, p: Id, m: Msg) returns (c': World)
    requires Scene(c0, c, a, b, d) && p in {1, 2, 3} && At(a, b, d, p).phase == Idle && Receives(c, p, m) && m.AppendReq?
    ensures Turned(c0, c', a, b, d, p, OnAppend(c0.cfg.codec, At(a, b, d, p), m)) && c.net <= c'.net
    ensures AppendAnswer(p, At(a, b, d, p), m) in c'.net
  {
    hide Scene, OnAppend, AppendAnswer, Walks, Turned;
    OnStage(c0, c, a, b, d, p);
    c' := AppendIsRun(c, p, m);
    Act(c0, c, a, b, d, p, OnAppend(c0.cfg.codec, At(a, b, d, p), m), c');
  }

  lemma Hears(c0: World, c: World, a: Node, b: Node, d: Node, p: Id, m: Msg) returns (c': World)
    requires Scene(c0, c, a, b, d) && p in {1, 2, 3} && At(a, b, d, p).phase == Idle && Receives(c, p, m) && m.AppendResp?
    requires m.src != p
    ensures Turned(c0, c', a, b, d, p, OnAppendReply(c0.cfg.codec, p, {1, 2, 3}, At(a, b, d, p), m)) && c.net <= c'.net
  {
    hide Scene, OnAppendReply, Walks, Turned;
    OnStage(c0, c, a, b, d, p);
    c' := AppendReplyIsRun(c, p, m);
    Act(c0, c, a, b, d, p, OnAppendReply(c0.cfg.codec, p, {1, 2, 3}, At(a, b, d, p), m), c');
  }

  lemma Runs(c0: World, c: World, a: Node, b: Node, d: Node, p: Id) returns (c': World)
    requires Scene(c0, c, a, b, d) && p in {1, 2, 3} && At(a, b, d, p).phase == Idle && At(a, b, d, p).role != Leader
    ensures Turned(c0, c', a, b, d, p, OnTimeout(p, {1, 2, 3}, At(a, b, d, p))) && c.net <= c'.net
  {
    hide Scene, OnTimeout, Walks, Turned;
    OnStage(c0, c, a, b, d, p);
    c' := CandidacyIsRun(c, p);
    Act(c0, c, a, b, d, p, OnTimeout(p, {1, 2, 3}, At(a, b, d, p)), c');
  }

  lemma Votes(c0: World, c: World, a: Node, b: Node, d: Node, p: Id, m: Msg) returns (c': World)
    requires Scene(c0, c, a, b, d) && p in {1, 2, 3} && At(a, b, d, p).phase == Idle && Receives(c, p, m) && m.VoteReq?
    ensures Turned(c0, c', a, b, d, p, OnVoteRequest(At(a, b, d, p), m)) && c.net <= c'.net
    ensures VoteAnswer(p, At(a, b, d, p), m) in c'.net
  {
    hide Scene, OnVoteRequest, VoteAnswer, Walks, Turned;
    OnStage(c0, c, a, b, d, p);
    c' := VoteRequestIsRun(c, p, m);
    Act(c0, c, a, b, d, p, OnVoteRequest(At(a, b, d, p), m), c');
  }

  lemma Tallies(c0: World, c: World, a: Node, b: Node, d: Node, p: Id, m: Msg) returns (c': World)
    requires Scene(c0, c, a, b, d) && p in {1, 2, 3} && At(a, b, d, p).phase == Idle && Receives(c, p, m) && m.VoteResp?
    ensures Turned(c0, c', a, b, d, p, OnVoteReply(p, {1, 2, 3}, At(a, b, d, p), m)) && c.net <= c'.net
  {
    hide Scene, OnVoteReply, Walks, Turned;
    OnStage(c0, c, a, b, d, p);
    c' := VoteReplyIsRun(c, p, m);
    Act(c0, c, a, b, d, p, OnVoteReply(p, {1, 2, 3}, At(a, b, d, p), m), c');
  }

  lemma Restarts(c0: World, c: World, a: Node, b: Node, d: Node, p: Id) returns (c': World)
    requires Scene(c0, c, a, b, d) && p in {1, 2, 3}
    ensures Turned(c0, c', a, b, d, p, OnRestart(c0.cfg.codec, At(a, b, d, p))) && c.net <= c'.net
  {
    hide Scene, OnRestart, Walks, Turned;
    OnStage(c0, c, a, b, d, p);
    c' := RestartIsRun(c, p);
    Act(c0, c, a, b, d, p, OnRestart(c0.cfg.codec, At(a, b, d, p)), c');
  }

  lemma Asks(c0: World, c: World, a: Node, b: Node, d: Node, p: Id, q: Id) returns (c': World)
    requires Scene(c0, c, a, b, d) && p in {1, 2, 3} && At(a, b, d, p).phase == Idle && At(a, b, d, p).role == Candidate
    ensures Scene(c0, c', a, b, d) && c.net <= c'.net
    ensures var n := At(a, b, d, p); VoteReq(p, q, n.term, |n.log|, LastTerm(n.log)) in c'.net
  {
    hide Reaches;
    var n := At(a, b, d, p);
    Stay(c, p);
    c' := Walk(c, p, n, c, AskVote(p, q), n);
    Act(c0, c, a, b, d, p, n, c');
  }

  lemma Sends(c0: World, c: World, a: Node, b: Node, d: Node, p: Id, q: Id, next: nat) returns (c': World)
    requires Scene(c0, c, a, b, d) && p in {1, 2, 3} && At(a, b, d, p).phase == Idle && At(a, b, d, p).role == Leader
    requires At(a, b, d, p).snap < next <= |At(a, b, d, p).log| + 1
    ensures Scene(c0, c', a, b, d) && c.net <= c'.net && AppendMsg(p, At(a, b, d, p), q, next) in c'.net
  {
    hide Reaches, AppendMsg;
    var n := At(a, b, d, p);
    Stay(c, p);
    c' := Walk(c, p, n, c, SendAppend(p, q, next), n);
    Act(c0, c, a, b, d, p, n, c');
  }

  // ----- the opening: node 1 leads term 1 ---------------------------------------

  lemma RunReaches(cs: seq<World>)
    requires Run(cs)
    ensures Reaches(cs[0], cs[|cs| - 1])
  {
    assert Path(cs);
  }

  lemma Opening(c0: World) returns (c: World)
    requires Init(c0) && c0.cfg.peers == {1, 2, 3}
    ensures Scene(c0, c, StaleRead.LEADER1, StaleRead.VOTER2, FRESH_NODE)
  {
    hide Init, Run, Reaches;
    var cs := StaleRead.FirstCampaign(c0);
    cs := StaleRead.FirstWin(cs);
    c := StaleRead.Last(cs);
    RunReaches(cs);
    assert cs[0] == c0;
    assert c.cfg == c0.cfg by { SameConfig(cs, |cs| - 1); }
  }

  lemma {:induction false} SameConfig(cs: seq<World>, k: nat)
    requires Run(cs) && k < |cs|
    ensures cs[k].cfg == cs[0].cfg
  {
    hide Enabled, NodeAfter, Sent, Trace, Init;
    if k > 0 {
      SameConfig(cs, k - 1);
      assert Next(cs[k - 1], cs[k]);
    }
  }

  /** What was reached from an initial state is the end of a run. */
  lemma Arrived(c0: World, c: World) returns (cs: seq<World>)
    requires Init(c0) && Reaches(c0, c)
    ensures Run(cs) && cs[0] == c0 && cs[|cs| - 1] == c
  {
    hide Init, Next;
    cs :| Path(cs) && cs[0] == c0 && cs[|cs| - 1] == c;
  }

  // ----- a run that was tainted stays so ----------------------------------------

  lemma CleanStep(c: World, s: Step)
    requires Enabled(c, s) && Do(c, s).h.clean
    ensures c.h.clean
  {
    hide Enabled, NodeAfter, Sent, Grants, Takes, Installs, Holders, ReplaySafe;
  }

  lemma {:induction false} PathTainted(cs: seq<World>, k: nat)
    requires Path(cs) && k < |cs| && !cs[0].h.clean
    ensures !cs[k].h.clean
  {
    hide Enabled, Do;
    if k > 0 {
      PathTainted(cs, k - 1);
      assert Next(cs[k - 1], cs[k]);
      var s :| Enabled(cs[k - 1], s) && cs[k] == Do(cs[k - 1], s);
      if cs[k].h.clean { CleanStep(cs[k - 1], s); }
    }
  }

  lemma Tainted(c: World, c': World)
    requires Reaches(c, c') && !c.h.clean
    ensures !c'.h.clean
  {
    hide Next;
    var cs :| Path(cs) && cs[0] == c && cs[|cs| - 1] == c';
    PathTainted(cs, |cs| - 1);
  }

  // ----- nothing to commit ------------------------------------------------------

  /** A leader none of whose peers has answered finds nothing to commit. */
  lemma {:induction false} Alone(p: Id, n: Node, from: nat)
    requires forall q :: q in n.matched ==> n.matched[q] == 0
    ensures Largest(p, {1, 2, 3}, n, from) == None
  {
    if from > n.commit {
      var high := set q | q in n.matched && n.matched[q] >= from;
      assert forall q :: q in n.matched ==> n.matched[q] < from;
      assert high == {} && Holders(p, n, from) == {p} + high;
      assert |{p}| == 1 && |{1, 2, 3}| == 3;
      Alone(p, n, from - 1);
    }
  }

  lemma SubmitsAlone(codec: Codec, p: Id, n: Node, command: Command)
    requires n.role == Leader && Admit(n, command) == Appended && forall q :: q in n.matched ==> n.matched[q] == 0
    ensures OnSubmit(codec, p, {1, 2, 3}, n, command) == Extend(n, command)
  {
    Alone(p, Extend(n, command), |n.log| + 1);
  }

  /** A leader and the one peer that has everything are a majority of three. */
  lemma Pair(p: Id, q: Id, r: Id, n: Node, index: nat)
    requires p != q && q != r && index > 0 && n.matched == map[q := index, r := 0]
    requires n.commit < index && TermAt(n, index) == n.term
    ensures Largest(p, {1, 2, 3}, n, index) == Some(index)
  {
    HoldersPair(p, q, r, n, index);
    hide Holders, TermAt;
    assert Counts(p, {1, 2, 3}, n, index);
  }

  lemma HoldersPair(p: Id, q: Id, r: Id, n: Node, index: nat)
    requires p != q && q != r && index > 0 && n.matched == map[q := index, r := 0]
    ensures |Holders(p, n, index)| == 2 && |{1, 2, 3}| == 3
  {
    var m := n.matched;
    assert m.Keys == {q, r} && m[q] == index && m[r] == 0;
    var others := set x | x in m && m[x] >= index;
    assert others == {q};
    assert Holders(p, n, index) == {p} + {q};
  }
}
