/** A replayed restart can leave two replicas apart for good: a run that ends there. Node 2
    applies a write without a request id and a later one with an id to the same key, learns a
    lower commit index from the next leader, crashes, and applies them again: the first write
    takes effect a second time, the second one is skipped. */
module Divergence {
  import opened Commands
  import opened Quorums
  import opened Cluster
  import opened Steps
  import opened Handlers
  import opened Draining
  import opened Scenes
  import ReplicationSteps
  import StaleRead

  const BARE := Entry(1, Command(Put, 1, 0, "k", "old"))
  const NAMED := Entry(1, Command(Put, 1, 7, "k", "new"))
  const LATER := Entry(2, Command(Put, 1, 8, "x", "y"))

  const LOG2 := [BARE, NAMED]
  const LOG3 := [BARE, NAMED, LATER]

  lemma Prefixes()
    ensures LOG2[..0] == [] && LOG2[..1] == [BARE] && LOG2[..2] == LOG2
    ensures LOG3[..0] == [] && LOG3[..1] == [BARE] && LOG3[..2] == LOG2 && LOG3[..3] == LOG3
  {}

  /** What the three writes make of an empty store. */
  lemma Folded()
    ensures Fold([]) == EMPTY && Accepted(LOG2) && Accepted(LOG3)
    ensures Fold(LOG2) == State(map["k" := "new"], map[(1, 7) := NAMED.command])
    ensures Fold(LOG3) == State(map["k" := "new", "x" := "y"], map[(1, 7) := NAMED.command, (1, 8) := LATER.command])
  {
    Prefixes();
    FoldStep(LOG3, 0);
    FoldStep(LOG3, 1);
    FoldStep(LOG3, 2);
    assert Fold([BARE]) == State(map["k" := "old"], map[]);
    assert map["k" := "old"]["k" := "new"] == map["k" := "new"];
    assert Fold(LOG2) == State(map["k" := "new"], map[(1, 7) := NAMED.command]);
  }

  // ----- node 1 writes twice; nodes 2 and 3 store both, node 2 applies them -------

  const IDLE2 := StaleRead.VOTER2
  const WROTE1 := StaleRead.LEADER1.(log := [BARE])
  const WRITER1 := StaleRead.LEADER1.(log := LOG2)
  const HOLDER2 := IDLE2.(log := LOG2)
  const HOLDER3 := FRESH_NODE.(term := 1, log := LOG2)

  const APPEND2 := AppendReq(1, 2, 1, 0, 0, LOG2, 0)
  const APPEND3 := AppendReq(1, 3, 1, 0, 0, LOG2, 0)
  const STORED2 := AppendResp(2, 1, 1, true, 2)
  const BEAT2 := AppendReq(1, 2, 1, 2, 1, [], 2)

  lemma Submitted(codec: Codec)
    ensures OnSubmit(codec, 1, {1, 2, 3}, StaleRead.LEADER1, BARE.command) == WROTE1
    ensures OnSubmit(codec, 1, {1, 2, 3}, WROTE1, NAMED.command) == WRITER1
  {
    hide OnSubmit;
    SubmitsAlone(codec, 1, StaleRead.LEADER1, BARE.command);
    SubmitsAlone(codec, 1, WROTE1, NAMED.command);
    assert [] + [BARE] == [BARE] && [BARE] + [NAMED] == LOG2;
  }

  lemma Sent()
    ensures AppendMsg(1, WRITER1, 2, 1) == APPEND2 && AppendMsg(1, WRITER1, 3, 1) == APPEND3
  {
    assert LOG2[0..2] == LOG2;
  }

  lemma TakesAll(n: Node, m: Msg)
    requires n.log == [] && n.snap == 0 && m.AppendReq? && m.prev == 0 && m.prevTerm == 0 && m.entries == LOG2
    ensures Merged(n, m) == Some(LOG2)
  {
    ReplicationSteps.AbsorbIsMerge([], LOG2, 0, 2, n.commit);
    assert LOG2[0..2] == LOG2 && LOG2[..2] == LOG2;
  }

  lemma Held(codec: Codec)
    ensures OnAppend(codec, IDLE2, APPEND2) == HOLDER2 && AppendAnswer(2, IDLE2, APPEND2) == STORED2
    ensures OnAppend(codec, FRESH_NODE, APPEND3) == HOLDER3
  {
    var n3 := Yield(FRESH_NODE, 1);
    TakesAll(IDLE2, APPEND2);
    TakesAll(n3, APPEND3);
    hide Merged, Settle;
    SettleNothing(codec, AppendOk(IDLE2, APPEND2, LOG2));
    SettleNothing(codec, AppendOk(n3, APPEND3, LOG2));
  }

  /** A node that has applied the two writes. */
  function Applied2(n: Node): Node {
    n.(commit := 2, high := 2, applied := 2, stateIndex := 2, dcommit := 2, state := Fold(LOG2))
  }

  const COMMITTER1 := Applied2(WRITER1.(matched := map[2 := 2, 3 := 0]))
  const APPLIER2 := Applied2(HOLDER2)

  lemma SettledTwo(codec: Codec, n: Node)
    requires n.log == LOG2 && n.snap == 0 && n.applied == 0 && n.stateIndex == 0 && n.state == EMPTY && n.commit == 2
    ensures Settle(codec, n) == n.(applied := 2, stateIndex := 2, dcommit := 2, state := Fold(LOG2), phase := Idle)
  {
    hide Settle, Fold, Accepted;
    Folded();
    Prefixes();
    SettledNode(codec, n);
  }

  lemma Committed(codec: Codec)
    ensures OnAppendReply(codec, 1, {1, 2, 3}, WRITER1, STORED2) == COMMITTER1
    ensures AppendMsg(1, COMMITTER1, 2, 3) == BEAT2
  {
    hide Largest, Fold, Settle;
    var n := WRITER1.(matched := map[2 := 2, 3 := 0]);
    assert WRITER1.matched[2 := 2] == n.matched;
    Pair(1, 2, 3, n, 2);
    SettledTwo(codec, CommitTo(n, 2));
  }

  lemma AppliedTwo(codec: Codec)
    ensures OnAppend(codec, HOLDER2, BEAT2) == APPLIER2
  {
    assert Merged(HOLDER2, BEAT2) == Some(LOG2);
    hide Merged, Settle, Fold;
    SettledTwo(codec, AppendOk(HOLDER2, BEAT2, LOG2));
  }

  lemma FirstAct(c0: World) returns (c: World)
    requires Init(c0) && c0.cfg.peers == {1, 2, 3}
    ensures Scene(c0, c, COMMITTER1, APPLIER2, HOLDER3)
  {
    var codec := c0.cfg.codec;
    assert StaleRead.LEADER1.phase == Idle && WROTE1.phase == Idle && WRITER1.phase == Idle && COMMITTER1.phase == Idle;
    assert WRITER1.role == Leader && COMMITTER1.role == Leader && WRITER1.snap == 0 && COMMITTER1.snap == 0;
    assert |WRITER1.log| == 2 && |COMMITTER1.log| == 2 && IDLE2.phase == Idle && HOLDER2.phase == Idle && FRESH_NODE.phase == Idle;
    Submitted(codec);
    Sent();
    Held(codec);
    Committed(codec);
    AppliedTwo(codec);
    assert APPEND2.dst == 2 && APPEND3.dst == 3 && STORED2.dst == 1 && BEAT2.dst == 2 && STORED2.src == 2;
    hide *;
    c := Opening(c0);
    Parts(StaleRead.LEADER1, IDLE2, FRESH_NODE);
    c := Submits(c0, c, StaleRead.LEADER1, IDLE2, FRESH_NODE, 1, BARE.command);
    First(c0, c, StaleRead.LEADER1, IDLE2, FRESH_NODE, WROTE1);
    Parts(WROTE1, IDLE2, FRESH_NODE);
    c := Submits(c0, c, WROTE1, IDLE2, FRESH_NODE, 1, NAMED.command);
    First(c0, c, WROTE1, IDLE2, FRESH_NODE, WRITER1);
    Parts(WRITER1, IDLE2, FRESH_NODE);
    c := Sends(c0, c, WRITER1, IDLE2, FRESH_NODE, 1, 2, 1);
    c := Sends(c0, c, WRITER1, IDLE2, FRESH_NODE, 1, 3, 1);
    Received(c, 3, APPEND3);
    c := Appends(c0, c, WRITER1, IDLE2, FRESH_NODE, 3, APPEND3);
    Third(c0, c, WRITER1, IDLE2, FRESH_NODE, HOLDER3);
    Received(c, 2, APPEND2);
    Parts(WRITER1, IDLE2, HOLDER3);
    c := Appends(c0, c, WRITER1, IDLE2, HOLDER3, 2, APPEND2);
    Second(c0, c, WRITER1, IDLE2, HOLDER3, HOLDER2);
    Received(c, 1, STORED2);
    Parts(WRITER1, HOLDER2, HOLDER3);
    c := Hears(c0, c, WRITER1, HOLDER2, HOLDER3, 1, STORED2);
    First(c0, c, WRITER1, HOLDER2, HOLDER3, COMMITTER1);
    Parts(COMMITTER1, HOLDER2, HOLDER3);
    c := Sends(c0, c, COMMITTER1, HOLDER2, HOLDER3, 1, 2, 3);
    Received(c, 2, BEAT2);
    c := Appends(c0, c, COMMITTER1, HOLDER2, HOLDER3, 2, BEAT2);
    Second(c0, c, COMMITTER1, HOLDER2, HOLDER3, APPLIER2);
  }

  // ----- node 3 wins term 2 with commit index 0 and passes it on ------------------

  const CANDIDATE3 := HOLDER3.(term := 2, vote := Some(3), role := Candidate, granted := {3})
  const LEADER3 := CANDIDATE3.(role := Leader, granted := {2, 3}, matched := map[1 := 0, 2 := 0])
  const WRITER3 := LEADER3.(log := LOG3)
  const VOTER2 := APPLIER2.(term := 2, vote := Some(3))
  const LOWERED2 := VOTER2.(log := LOG3, commit := 0, dcommit := 0)

  const ASK3 := VoteReq(3, 2, 2, 2, 1)
  const GRANT2 := VoteResp(2, 3, 2, true)
  const APPEND32 := AppendReq(3, 2, 2, 2, 1, [LATER], 0)
  const STORED3 := AppendResp(2, 3, 2, true, 3)

  lemma Elected()
    ensures OnTimeout(3, {1, 2, 3}, HOLDER3) == CANDIDATE3
    ensures OnVoteRequest(APPLIER2, ASK3) == VOTER2 && VoteAnswer(2, APPLIER2, ASK3) == GRANT2
    ensures OnVoteReply(3, {1, 2, 3}, CANDIDATE3, GRANT2) == LEADER3
  {
    hide Fold;
    assert {3} + {2} == {2, 3} && |{2, 3}| == 2 && |{1, 2, 3}| == 3;
    assert (map q | q in {1, 2, 3} - {3} :: 0) == map[1 := 0, 2 := 0];
  }

  lemma Wrote3(codec: Codec)
    ensures OnSubmit(codec, 3, {1, 2, 3}, LEADER3, LATER.command) == WRITER3
    ensures AppendMsg(3, WRITER3, 2, 3) == APPEND32
  {
    hide OnSubmit;
    SubmitsAlone(codec, 3, LEADER3, LATER.command);
    assert LOG2 + [LATER] == LOG3 && LOG3[2..3] == [LATER];
  }

  lemma TakesLater(n: Node)
    requires n.log == LOG2 && n.snap == 0
    ensures Merged(n, APPEND32) == Some(LOG3)
  {
    assert LOG2[..2] + [LATER] == LOG3 && [LATER][1..] == [];
    assert Absorb(LOG2, 2, [LATER], n.commit) == Absorb(LOG3, 3, [], n.commit);
  }

  lemma Lowered(codec: Codec)
    ensures OnAppend(codec, VOTER2, APPEND32) == LOWERED2 && AppendAnswer(2, VOTER2, APPEND32) == STORED3
  {
    TakesLater(VOTER2);
    hide Merged, Settle, Fold;
    SettleNothing(codec, AppendOk(VOTER2, APPEND32, LOG3));
  }

  lemma SecondAct(c0: World, was: World) returns (c: World)
    requires Scene(c0, was, COMMITTER1, APPLIER2, HOLDER3)
    ensures Scene(c0, c, COMMITTER1, LOWERED2, WRITER3) && STORED3 in c.net
  {
    var codec := c0.cfg.codec;
    assert HOLDER3.phase == Idle && HOLDER3.role == Follower && CANDIDATE3.phase == Idle && CANDIDATE3.role == Candidate;
    assert CANDIDATE3.term == 2 && |CANDIDATE3.log| == 2 && LastTerm(CANDIDATE3.log) == 1;
    assert APPLIER2.phase == Idle && VOTER2.phase == Idle && LEADER3.phase == Idle && WRITER3.phase == Idle;
    assert WRITER3.role == Leader && WRITER3.snap == 0 && |WRITER3.log| == 3;
    Elected();
    Wrote3(codec);
    Lowered(codec);
    assert ASK3.dst == 2 && GRANT2.dst == 3 && APPEND32.dst == 2;
    hide *;
    Parts(COMMITTER1, APPLIER2, HOLDER3);
    c := Runs(c0, was, COMMITTER1, APPLIER2, HOLDER3, 3);
    Third(c0, c, COMMITTER1, APPLIER2, HOLDER3, CANDIDATE3);
    Parts(COMMITTER1, APPLIER2, CANDIDATE3);
    c := Asks(c0, c, COMMITTER1, APPLIER2, CANDIDATE3, 3, 2);
    Received(c, 2, ASK3);
    c := Votes(c0, c, COMMITTER1, APPLIER2, CANDIDATE3, 2, ASK3);
    Second(c0, c, COMMITTER1, APPLIER2, CANDIDATE3, VOTER2);
    Received(c, 3, GRANT2);
    Parts(COMMITTER1, VOTER2, CANDIDATE3);
    c := Tallies(c0, c, COMMITTER1, VOTER2, CANDIDATE3, 3, GRANT2);
    Third(c0, c, COMMITTER1, VOTER2, CANDIDATE3, LEADER3);
    Parts(COMMITTER1, VOTER2, LEADER3);
    c := Submits(c0, c, COMMITTER1, VOTER2, LEADER3, 3, LATER.command);
    Third(c0, c, COMMITTER1, VOTER2, LEADER3, WRITER3);
    Parts(COMMITTER1, VOTER2, WRITER3);
    c := Sends(c0, c, COMMITTER1, VOTER2, WRITER3, 3, 2, 3);
    Received(c, 2, APPEND32);
    c := Appends(c0, c, COMMITTER1, VOTER2, WRITER3, 2, APPEND32);
    Second(c0, c, COMMITTER1, VOTER2, WRITER3, LOWERED2);
  }

  // ----- node 2 crashes and replays what it had applied --------------------------

  const RESTARTED2 := LOWERED2.(applied := 0)
  const OLD := State(map["k" := "old", "x" := "y"], map[(1, 7) := NAMED.command, (1, 8) := LATER.command])
  const COMMITTER3 := WRITER3.(matched := map[1 := 0, 2 := 3], commit := 3, high := 3, applied := 3, stateIndex := 3,
                               dcommit := 3, state := Fold(LOG3))
  const DIVERGED2 := RESTARTED2.(commit := 3, high := 3, applied := 3, stateIndex := 3, dcommit := 3, state := OLD)

  const BEAT3 := AppendReq(3, 2, 2, 3, 2, [], 3)

  /** The crash itself: the restart will replay a command without a request id. */
  lemma Crashes(c0: World, c: World) returns (c1: World, c2: World)
    requires Scene(c0, c, COMMITTER1, LOWERED2, WRITER3)
    ensures Reaches(c0, c1) && !c1.h.clean && c1.cfg == c0.cfg && c.net <= c2.net
    ensures Scene(c1, c2, COMMITTER1, RESTARTED2, WRITER3)
  {
    hide Reaches, Settle, Fold;
    Stay(c, 2);
    c1 := Walk(c, 2, LOWERED2, c, Crash(2), Restart(LOWERED2));
    assert !c1.h.clean by { assert LOG3[0] == BARE && !BARE.command.HasId(); }
    ReachesTrans(c0, c, c1);
    Stay(c1, 2);
    c2 := SettleWalk(c1, 2, Restart(LOWERED2), c1);
    SettleNothing(c1.cfg.codec, Restart(LOWERED2));
    assert Restart(LOWERED2).(dcommit := 0, phase := Idle) == RESTARTED2;
  }

  lemma Committed3(codec: Codec)
    ensures OnAppendReply(codec, 3, {1, 2, 3}, WRITER3, STORED3) == COMMITTER3
  {
    hide Largest, Fold, Settle, Accepted;
    var n := WRITER3.(matched := map[2 := 3, 1 := 0]);
    assert WRITER3.matched[2 := 3] == map[2 := 3, 1 := 0] == map[1 := 0, 2 := 3];
    Pair(3, 2, 1, n, 3);
    SettledThree(codec, CommitTo(n, 3));
  }

  lemma Sent3()
    ensures AppendMsg(3, COMMITTER3, 2, 4) == BEAT3
  {
    hide Fold;
  }

  lemma SettledThree(codec: Codec, n: Node)
    requires n.log == LOG3 && n.snap == 0 && n.applied == 0 && n.stateIndex == 0 && n.state == EMPTY && n.commit == 3
    ensures Settle(codec, n) == n.(applied := 3, stateIndex := 3, dcommit := 3, state := Fold(LOG3), phase := Idle)
  {
    hide Settle, Fold, Accepted;
    Folded();
    Prefixes();
    SettledNode(codec, n);
  }

  /** One turn of the apply loop. */
  lemma Turn(n: Node, s: State)
    requires n.applied < n.commit && n.applied < |n.log| && Applicable(n.state, n.log[n.applied].command)
    requires Execute(n.state, n.log[n.applied].command) == s
    ensures Drain(n) == Drain(n.(state := s, stateIndex := Max(n.stateIndex, n.applied + 1), applied := n.applied + 1,
                                 dcommit := n.commit))
  {
    hide Drain;
    DrainUnfold(n);
  }

  lemma Effects()
    ensures var s1 := State(map["k" := "old"], map[(1, 7) := NAMED.command]);
            && Applicable(Fold(LOG2), BARE.command) && Execute(Fold(LOG2), BARE.command) == s1
            && Applicable(s1, NAMED.command) && Execute(s1, NAMED.command) == s1
            && Applicable(s1, LATER.command) && Execute(s1, LATER.command) == OLD
  {
    Folded();
    hide Fold;
    assert map["k" := "new"]["k" := "old"] == map["k" := "old"];
  }

  lemma Replays(n: Node)
    requires n.log == LOG3 && n.commit == 3 && n.applied == 0 && n.stateIndex == 2 && n.state == Fold(LOG2)
    ensures Drain(n) == n.(state := OLD, stateIndex := 3, applied := 3, dcommit := 3)
  {
    Effects();
    hide Drain, Fold, Execute, Applicable;
    var s1 := State(map["k" := "old"], map[(1, 7) := NAMED.command]);
    var n1 := n.(state := s1, applied := 1, dcommit := 3);
    var n2 := n1.(applied := 2);
    var n3 := n2.(state := OLD, stateIndex := 3, applied := 3);
    Turn(n, s1);
    Turn(n1, s1);
    Turn(n2, OLD);
    DrainUnfold(n3);
  }

  lemma Diverges(codec: Codec)
    ensures OnAppend(codec, RESTARTED2, BEAT3) == DIVERGED2
  {
    assert Merged(RESTARTED2, BEAT3) == Some(LOG3);
    hide Merged, Drain, Fold;
    Replays(AppendOk(RESTARTED2, BEAT3, LOG3));
  }

  lemma ThirdAct(c0: World, was: World) returns (c: World)
    requires Scene(c0, was, COMMITTER1, RESTARTED2, WRITER3) && STORED3 in was.net
    ensures Scene(c0, c, COMMITTER1, DIVERGED2, COMMITTER3)
  {
    var codec := c0.cfg.codec;
    assert RESTARTED2.phase == Idle && WRITER3.phase == Idle && COMMITTER3.phase == Idle;
    assert COMMITTER3.role == Leader && COMMITTER3.snap == 0 && |COMMITTER3.log| == 3;
    Committed3(codec);
    Sent3();
    Diverges(codec);
    assert STORED3.dst == 3 && STORED3.src == 2 && BEAT3.dst == 2;
    hide *;
    Received(was, 3, STORED3);
    Parts(COMMITTER1, RESTARTED2, WRITER3);
    c := Hears(c0, was, COMMITTER1, RESTARTED2, WRITER3, 3, STORED3);
    Third(c0, c, COMMITTER1, RESTARTED2, WRITER3, COMMITTER3);
    Parts(COMMITTER1, RESTARTED2, COMMITTER3);
    c := Sends(c0, c, COMMITTER1, RESTARTED2, COMMITTER3, 3, 2, 4);
    Received(c, 2, BEAT3);
    c := Appends(c0, c, COMMITTER1, RESTARTED2, COMMITTER3, 2, BEAT3);
    Second(c0, c, COMMITTER1, RESTARTED2, COMMITTER3, DIVERGED2);
  }

  lemma Ends()
    ensures DIVERGED2.phase == Idle && COMMITTER3.phase == Idle && DIVERGED2.log == COMMITTER3.log == LOG3
    ensures DIVERGED2.applied == DIVERGED2.commit == COMMITTER3.applied == COMMITTER3.commit == 3
    ensures COMMITTER3.state == Fold(LOG3) && DIVERGED2.state == OLD && OLD.user["k"] == "old"
    ensures "k" in Fold(LOG3).user && Fold(LOG3).user["k"] == "new"
  {
    Folded();
    hide Fold;
  }

  /** From every initial state of three nodes a run leads to two idle replicas with the same
      log and the same last_applied, of which one holds the fold of that log and the other,
      which crashed and replayed, an older value of a key. */
  lemma ReplayDiverges(c0: World) returns (cs: seq<World>)
    requires Init(c0) && c0.cfg.peers == {1, 2, 3}
    ensures Run(cs) && cs[0] == c0 && {2, 3} <= cs[|cs| - 1].nodes.Keys && !cs[|cs| - 1].h.clean
    ensures var a, b := cs[|cs| - 1].nodes[2], cs[|cs| - 1].nodes[3];
            && a.phase == b.phase == Idle && a.log == b.log && a.applied == a.commit == b.applied == b.commit == |a.log|
            && b.state == Fold(b.log) && "k" in a.state.user && "k" in b.state.user
            && a.state.user["k"] == "old" && b.state.user["k"] == "new"
  {
    Ends();
    hide Init, Run, Reaches, Fold;
    var c := FirstAct(c0);
    c := SecondAct(c0, c);
    var c1, c2 := Crashes(c0, c);
    c := ThirdAct(c1, c2);
    Tainted(c1, c);
    ReachesTrans(c0, c1, c);
    cs := Arrived(c0, c);
  }
}
